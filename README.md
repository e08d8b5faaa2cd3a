# Archetype: the decision rules of a WordPress plugin, in Dafny

Archetype is a WordPress plugin with these parts:
- a small form framework: named forms of slug-keyed fields that validate a submission and hand it to a processor;
- user-profile fields that save to user meta;
- a signup "funnel" that steers a user to the first phase they have not completed;
- Facebook sign-on helpers;
- a few utilities.

This project models the parts of these that make decisions. It proves what those parts promise.

| module | file | models |
|---|---|---|
| `Php` | php.dfy | PHP values, truthiness, `isset`, `wp_parse_args` |
| `UserMeta` | user_meta.dfy | the per-user meta store behind `get_meta` / `update_meta` |
| `UserFields` | user_fields.dfy | `Archetype_User_Field` and its admin, frontend and checkbox subclasses |
| `Forms` | forms.dfy | `Archetype_Form`, `Archetype_Form_Processor`, `at_form`, `at_register_form` |
| `Funnels` | funnel.dfy | `Archetype_Funnel` |
| `Sso` | facebook.dfy | `Archetype_Facebook` |
| `Functions` | functions.dfy | `at_get_mime_type_ext`, `at_ajax_response`'s slash rewrite, `hm_get_template_part` |

State the source changes in place is a class:
- the form registry `Archetype_Form::$forms` and each form's error list;
- the Facebook singleton and its once-only `$reauth` flag;
- the object cache;
- the meta store.

Loops in the source are loops here, each proved against a specification function:
- the field map built by the form constructor;
- the validation pass;
- `get_tests` and `get_next_phase`;
- the cache-argument loop.

Inputs are ordinary values:
- the request (`$_POST`, the request method, the nonce check);
- the WordPress capabilities;
- `sanitize_text_field`;
- the field validators;
- the Graph API.

The clock is a parameter. A call ending in `wp_redirect` and `die()` returns an outcome value rather than stopping.

Where the code and its own comments differ, the model follows the code:
- `process` is documented as processing "the valid, sanitized input" (archetype.users.frontend.php:200). `at_form` calls it whether or not `validate` passed (see Findings).
- The form calls `is_valid()` with no argument (archetype.users.frontend.php:141), while a user field's `is_valid` takes `$input` (archetype.users.admin.php:113). Form fields are therefore not user fields here: a form field's `is_valid()` is an input of three values, true, plain false, or an error with a message.
- `save` is documented as not saving "if the validation doesn't return true" (archetype.users.admin.php:126). The text field's `save` tests the validator's answer for truthiness, and the checkbox's `save` ignores the validator. Without permission it returns `false` and writes nothing.

PHP arrays have distinct keys. Where an ordered array is a sequence of pairs here (the template and cache arguments), the operations require distinct keys. Indexing follows PHP 5.4 to 7.x, the versions this code was written for.

## Model

| member | source | states |
|---|---|---|
| Php.ParseArgs | archetype.users.admin.php:75 | the merged options hold every key of either map; a caller's key overrides the default, and an unpassed default survives |
| Php.Index | archetype.facebook.php:126-130 | `$v[$k]`: an array reads the key (a list only its integer keys); a string reads one character at offset `(int) $k`, the first one for a non-numeric key and the empty string past the end; anything else reads null |
| UserMeta.MetaStore.Update | archetype.users.admin.php:144 | `update_meta` sets that user's key to the value and leaves every other user and key as it was |
| UserFields.UserField.constructor | archetype.users.admin.php:62-84 | the slug is the meta key; options are merged over the five defaults; the field joins the signup form iff `show_in_signup` or `signup_only` is truthy; it adds its class's profile hooks iff `signup_only` is not truthy |
| UserFields.HooksFor | archetype.users.admin.php:196-209 | a frontend field hooks the two frontend actions; an admin or checkbox field hooks four profile actions, among them both profile-update actions its `save` runs on |
| UserFields.UserField.IsValid | archetype.users.admin.php:113-115 | the default `__return_true` answers true; any other configured callable's answer is passed through unchanged |
| UserFields.UserField.GetPostedValue | archetype.users.admin.php:101-106 | the posted value under the slug when it is set and not null, `false` otherwise |
| UserFields.UserField.Save | archetype.users.admin.php:130-145 | for the text and checkbox `save`: writes at most one meta value, this field's key of that user, exactly as `PlannedWrite` says; returns false when it writes nothing and null when it writes |
| UserFields.SaveNeedsBothCapabilities | archetype.users.admin.php:132-133 | no write happens unless the actor may edit that user and is an administrator |
| UserFields.TextSaveWritesOnlyValidated | archetype.users.admin.php:137-144 | a permitted text save writes the sanitized posted value iff the configured validator answers truthy for it |
| UserFields.DefaultValidatorAlwaysWrites | archetype.users.admin.php:67-75 | with the default `__return_true` validator a permitted text save always writes |
| UserFields.CheckboxSaveIgnoresValidator | archetype.users.admin.php:238-252 | a checkbox writes '0' when its key is not posted and the sanitized value otherwise, whatever its validator |
| Forms.SlugOrderKeys | archetype.users.frontend.php:55-56 | the form's key order lists each slug once, and exactly the keys of the field map |
| Forms.FieldMapSlugs | archetype.users.frontend.php:55-56 | every given field's slug is a key; each key maps to a field with that slug, and every key is the slug of some given field |
| Forms.LaterFieldWins | archetype.users.frontend.php:55-56 | the field the map keeps under a slug is the last one given with that slug |
| Forms.SlugOrderPrefix | archetype.users.frontend.php:55-56 | adding fields never reorders the keys already present |
| Forms.FirstInsertionOrder | archetype.users.frontend.php:55-56 | a slug sits in the key order at the place of its first insertion |
| Forms.SawGenericMeans | archetype.users.frontend.php:150-155 | the loop's `$generic_error` flag is set iff some visited required field returned plain false |
| Forms.FirstGeneric | archetype.users.frontend.php:150-155 | the position of the first required field that returned plain false |
| Forms.RequiredOnly | archetype.users.frontend.php:141 | the required fields of a list, and nothing else |
| Forms.FieldErrorsShape | archetype.users.frontend.php:139-158 | reference description of one pass's field errors: every field-specific error in field order, with one generic error at the position of the first plain-false required field, if there is one |
| Forms.OnlyRequiredFieldsMatter | archetype.users.frontend.php:141 | fields that are not required never add errors, whatever their validator returns |
| Forms.GenericErrorAtMostOnce | archetype.users.frontend.php:150-155 | one pass records exactly one generic error if any required field returned plain false, and none otherwise |
| Forms.SpecificErrorsKept | archetype.users.frontend.php:143-146 | the `failed_field_validation` errors of a pass are the messages of the required fields whose validator returned an error, in field order |
| Forms.NoNonceErrorFromFields | archetype.users.frontend.php:139-158 | the field loop never adds a nonce error |
| Forms.NonceFailureDoesNotStopFieldChecks | archetype.users.frontend.php:136-139 | a failed nonce adds exactly one `failed_nonce_check` error, ahead of the field errors, which are the same as with a good nonce |
| Forms.Report | archetype.users.frontend.php:160-171 | `validate` passes iff the error list is empty; otherwise it returns the whole list, or one `general_errors` error when discrete errors are off |
| Forms.Displayed | archetype.users.frontend.php:160-171 | what `at_display_errors` receives: nothing iff the form holds no errors, otherwise the whole list with discrete errors on, or the one general error |
| Forms.RunProcessor | archetype.users.frontend.php:90-95 | `succeed` is called with the processor's result iff that result is truthy |
| Forms.AtFormProcessesInvalidSubmission | archetype.users.frontend.php:220-225 | as written, a submission that failed validation still reaches the processor and its success callback |
| Forms.AtFormGuardedFlow | archetype.users.frontend.php:220-225 | corrected flow: errors are shown iff validation failed, and the processor runs iff it passed |
| Forms.SelectFields | archetype.users.frontend.php:237-244 | `at_register_form` keeps exactly the registered fields whose slug is wanted |
| Forms.SelectFieldsKeepsOrder | archetype.users.frontend.php:239-244 | the kept fields stay in registration order, not in the order of the wanted list |
| Forms.Ucwords | archetype.users.frontend.php:74 | `ucwords` keeps the length, leaves every character that does not start a word as it was, and upper-cases the letter that starts each word |
| Forms.UcwordsIdempotent | archetype.users.frontend.php:74 | applying `ucwords` twice gives the same as once |
| Forms.ProcessorClass | archetype.users.frontend.php:74 | the class name is `Archetype_`, then exactly `Ucwords` of the form name, then `_Form_Processor` |
| Forms.ProcessorClassIgnoresWordCase | archetype.users.frontend.php:74 | a form name and its capitalised version are processed by the same class |
| Forms.SignupProcessorClass | archetype.users.frontend.php:74 | a form named 'signup' is processed by `Archetype_Signup_Form_Processor` |
| Forms.Processor.constructor | archetype.users.frontend.php:175-177 | a processor starts with no errors |
| Forms.Processor.AddError | archetype.users.frontend.php:183-185 | `add_error` appends the error and nothing else |
| Forms.Form.constructor | archetype.users.frontend.php:53-76 | the fields are keyed by slug in first-insertion order, with the last field under each slug kept; options are merged over the three defaults; the processor is the class named after the form |
| Forms.Form.OrderedFields | archetype.users.frontend.php:139 | the fields in the order `foreach` visits them |
| Forms.Form.DiscreteErrorsByDefault | archetype.users.frontend.php:57-60 | `ShowDiscreteErrors` holds unless the caller passes `show_discrete_errors`, and then it follows that option's truthiness |
| Forms.Form.GetFieldNames | archetype.users.frontend.php:119-121 | exactly the form's slug order: every field slug once, in order of first insertion, and nothing else |
| Forms.Form.GetField | archetype.users.frontend.php:111-113 | the stored field under a slug (`fields[slug]`), or null for a missing one |
| Forms.Form.Validate | archetype.users.frontend.php:131-172 | appends exactly this pass's errors (the nonce error, then the field errors) to the errors the form already held, and reports on the whole list; once the list is non-empty every later call fails |
| Forms.Form.Process | archetype.users.frontend.php:90-95 | the processor's result goes to `succeed` only when it is truthy |
| Forms.FormRegistry.constructor | archetype.users.frontend.php:17 | the registry starts empty |
| Forms.FormRegistry.Get | archetype.users.frontend.php:36-38 | the form most recently added under the name, or null |
| Forms.FormRegistry.Add | archetype.users.frontend.php:25-29 | a new form under the name replaces any earlier one; other names are untouched |
| Forms.FormRegistry.RegisterForm | archetype.users.frontend.php:235-245 | adds a form made of the wanted registered fields |
| Forms.FormRegistry.AtForm | archetype.users.frontend.php:213-226 | changes no form on a non-POST request or for an unknown form (an error); otherwise it appends this pass's errors to the named form only, hands `at_display_errors` exactly what `validate` reported when there are errors, and runs the processor whatever validation said |
| Forms.FormRegistry.AtFormGuarded | archetype.users.frontend.php:213-226 | corrected `at_form`: the same frames and displayed errors, but the processor runs iff the form has no errors and is skipped otherwise |
| Funnels.InArray | archetype.funnel.php:130 | membership in an array's values; null for anything that is not an array |
| Funnels.RunTest | archetype.funnel.php:119-131 | a usermeta test passes iff the user's meta at the phase's key is truthy; a once test fails on missing or falsy progress, passes iff the phase is among the values of an array progress (list or keyed), and answers null for truthy progress that is not an array |
| Funnels.TestFor | archetype.funnel.php:119-131 | a usermeta test fails iff the user's meta at the phase's meta key is falsy; a once test fails on missing or falsy progress, and otherwise iff the phase key is not in the progress list |
| Funnels.Tests | archetype.funnel.php:112-137 | never more tests than phases; which tests, and in which order, is stated by `TestsMatchPhases` and `NextPhaseIsFirstFailingPhase` |
| Funnels.TestsMatchPhases | archetype.funnel.php:116-134 | every test comes from a recognised phase under that phase's key, and every recognised phase has its test |
| Funnels.FirstFailing | archetype.funnel.php:96-103 | the first test, in order, that returns exactly false; none when no test does |
| Funnels.NextPhase | archetype.funnel.php:92-104 | no answer iff every test passes; otherwise the key of a failing test that every earlier test passes |
| Funnels.NextPhaseIsFirstFailingPhase | archetype.funnel.php:92-137 | over the phases in declaration order: the returned key is that of a recognised phase whose test fails, and every recognised phase declared before it passes |
| Funnels.NoNextPhaseIffAllPass | archetype.funnel.php:92-104 | `get_next_phase` returns false iff every recognised phase passes its test |
| Funnels.FirstFailingUnique | archetype.funnel.php:96-100 | a failing test that every earlier test passes is the next phase |
| Funnels.PrefixDecides | archetype.funnel.php:98-99 | once a test has failed, the tests after it do not affect the answer |
| Funnels.UnrecognisedNeverNext | archetype.funnel.php:117-134 | a phase with an unrecognised `test_type` is never the next phase |
| Funnels.PhaseAt | archetype.funnel.php:69 | `$phases[$next]`: a phase stored under that key, or nothing when no phase has it |
| Funnels.NextPhaseIsFailingPhase | archetype.funnel.php:58-70 | the phase the constructor looks up is a recognised phase whose own test fails |
| Funnels.HookGate | archetype.funnel.php:61-62 | `!$next` lets the constructor go on iff there is a next phase whose key is neither "" nor "0" |
| Funnels.PhaseZeroNeverHooked | archetype.funnel.php:61-62 | a failing first phase keyed "0" is the next phase, yet the `!$next` gate turns it away |
| Funnels.Signups.RegisterCompleted | archetype.funnel.php:35 | the user is recorded as having completed signup |
| Funnels.CompleteExit | archetype.funnel.php:33-41 | `complete` always ends in a redirect |
| Funnels.IntendedCompleteExit | archetype.funnel.php:30-33 | the documented intent: redirect to `$path` when `$redirect` is set, otherwise return |
| Funnels.CompleteIgnoresPath | archetype.funnel.php:33-38 | the redirect target is the same for every `$path` and `$redirect`, and differs from the documented one |
| Funnels.Complete | archetype.funnel.php:33-41 | records the completion and then redirects to '/' |
| Funnels.CompleteTo | archetype.funnel.php:30-41 | records the completion, then redirects to `$path` when `$redirect` is set |
| Funnels.Funnel.GetTests | archetype.funnel.php:112-137 | builds exactly the test list the specification function describes |
| Funnels.Funnel.GetNextPhase | archetype.funnel.php:92-104 | returns the key of the first failing test or false; it runs the tests up to and including the first failing one and no further |
| Funnels.Funnel.constructor | archetype.funnel.php:53-74 | when the next phase has a truthy key, filters `at_is_funnel` and hooks exactly that phase's callback on its hook; otherwise it does nothing |
| Funnels.Funnel.Intended | archetype.funnel.php:57-70 | corrected gate: hooks the failing phase's callback whenever some phase fails |
| Sso.ParseFbPostdata | archetype.facebook.php:124-133 | the result has exactly the keys token, id and expires |
| Sso.ParseRecoversPayload | archetype.facebook.php:126-132 | parsing recovers `accessToken`, `userID` and `expiresIn` as token, id and expires, whatever else the post holds |
| Sso.ParseWithoutAuthResponse | archetype.facebook.php:126-132 | a post whose `authResponse` is neither an array nor a string parses to three nulls |
| Sso.ParseStringAuthResponse | archetype.facebook.php:126-132 | a string posted as `authResponse` reads by string offset: token, id and expiry are all its first character, or all empty |
| Sso.AfterUserinfo | archetype.facebook.php:249-260 | a Graph API failure sets `$reauth` and queues the nag only if the flag was clear; success changes nothing |
| Sso.NagAtMostOnce | archetype.facebook.php:254-258 | over any run of calls the nag is queued once if any call failed and never otherwise |
| Sso.SsoState.constructor | archetype.facebook.php:30-36 | no instance, flag clear, nothing queued |
| Sso.SsoState.GetInstance | archetype.facebook.php:107-116 | an existing instance is returned untouched and the token ignored; without an app id and secret the call dies; otherwise a new instance keeps the token |
| Sso.SsoState.FindUser | archetype.facebook.php:142-167 | as written: the first user the `at_fb_id` meta query finds (any user with the key when the id is null or empty), touching nothing; without a match and a token, false; with a token, the user with the e-mail the Graph API reports, after setting the token on the instance |
| Sso.SsoState.FindUserIntended | archetype.facebook.php:142-167 | corrected `find_user`: the same, except that a null or empty Facebook id finds no user by id, and a user found has exactly that id stored |
| Sso.SsoState.BindUser | archetype.facebook.php:176-192 | writes the Facebook id, the long-lived token and its expiry plus the current time to the three meta keys before anything can die; an existing instance keeps its token; otherwise a new instance holds the long-lived token when truthy, and `$reauth` and the queued nag follow `get_userinfo` |
| Sso.BoundRow | archetype.facebook.php:180-182 | the three meta keys hold the id, the token and the absolute expiry; every other key is unchanged |
| Sso.FirstWithMeta | archetype.facebook.php:144-154 | a listed user who has the key, with the value unless that is null or empty, or none when no listed user does |
| Sso.NullIdFindsAnyBoundUser | archetype.facebook.php:144-148 | a login post without `userID` parses to a null id, and the meta query then finds a user bound to another Facebook id |
| Sso.FirstWithFbId | archetype.facebook.php:144-154 | corrected lookup: no user for a null or empty id; otherwise a listed user whose stored `at_fb_id` equals the id, the same user the query finds |
| Sso.FirstWithMetaIsFirst | archetype.facebook.php:144-153 | the user found is the first match in listing order |
| Sso.Facebook.constructor | archetype.facebook.php:201-215 | keeps a truthy token, then calls `get_userinfo` once |
| Sso.Facebook.SetAccessToken | archetype.facebook.php:239-242 | the instance's token becomes the given one |
| Sso.Facebook.GetUserinfo | archetype.facebook.php:249-260 | the API's answer, or null on failure; the failure nags only the first time, so the nag never appears twice |
| Sso.Facebook.ReauthButton | archetype.facebook.php:277-280 | the "Reconnect with Facebook" button is shown iff `$reauth` is set |
| Functions.MimeTypeExt | archetype.functions.php:44-49 | image/jpeg gives jpg, image/png gives png, and every other type gives null |
| Functions.AjaxResponseText | archetype.functions.php:25 | the rewrite never lengthens the text |
| Functions.NoEscapedSlashUnchanged | archetype.functions.php:25 | text without a backslash directly before a slash is left unchanged |
| Functions.AjaxResponseTextNotIdempotent | archetype.functions.php:25 | rewriting twice can remove more than rewriting once |
| Functions.RewriteUnescapesSlashes | archetype.functions.php:23-27 | the rewrite of an encoded string is exactly the encoding without escaped slashes; escaped backslashes are never broken |
| Functions.AssocSetGet | archetype.functions.php:66 | after assigning a key, reading it gives the new value and every other key reads as before |
| Functions.Copied | archetype.functions.php:65-69 | scalars and arrays are copied as they are, objects with `get_id` as their id, and anything else not at all |
| Functions.CacheArgsFor | archetype.functions.php:64-70 | the loop never removes a cache arg: every key present before is present after |
| Functions.CacheArgsLookup | archetype.functions.php:64-70 | every key of the derived cache args holds the last copied template arg under it, or else its original cache arg |
| Functions.SkippedArgsChangeNothing | archetype.functions.php:65-69 | template args that are neither scalar, array nor object with `get_id` leave the cache args unchanged |
| Functions.ReturnRequested | archetype.functions.php:74 | with no `return` key nothing is returned; with distinct keys, returning is requested iff the `return` argument is an object or truthy |
| Functions.Rendered | archetype.functions.php:96-102 | with `return` requested the output is returned, or false when the template returned false; otherwise the output is echoed |
| Functions.FromCache | archetype.functions.php:72-79 | a cache hit is returned when `return` is requested and echoed otherwise |
| Functions.DeriveCacheArgs | archetype.functions.php:64-70 | the loop computes exactly the derived cache args |
| Functions.ObjectCache.GetTemplatePart | archetype.functions.php:57-103 | with empty cache args the cache is neither read nor written; otherwise a hit is served unchanged and a miss is rendered and stored for 3600 seconds under the derived cache args |

## Left out

- WordPress hook dispatch (`add_action`, `add_filter`, `apply_filters`) is not modelled. A hook registration is a recorded flag or a set of hook names.
- The `hook_to_page` closure in the form constructor (archetype.users.frontend.php:64-72) is not modelled. It only registers a `pre_get_posts` callback.
- `nonce_field`, `show_field`, `at_display_errors`, the buttons' views and all other views are not modelled: they only render.
- `Archetype_Form_Field` is not part of this model. Its `required()` and `is_valid()` are carried by the `FormField` value. Its `get_fields()` registry is the list passed to `at_register_form`.
- The `User` class is not part of this model. Its meta is `UserMeta.MetaStore`. `register_signup_completed` is `Funnels.Signups`. `User::get_by_email` is a map. `get_users` is listing order plus meta.
- `Archetype_User_Admin_Select_Field` is not modelled: it only renders options. Its constructor passes the callback as the options argument.
- `display_progress` and `at_is_funnel` are not modelled: they are rendering and a filter read. `get_phases` is empty in the base class, so the phases and the funnel's `$name` are constructor parameters.
- Forms.Form.GetFieldNames: returns the empty sequence for a form without fields. In the source `$fields` is then never assigned, so `array_keys` gets null and returns null with a warning (PHP 5.4 to 7.x) or throws (PHP 8).
- Forms.SelectFields: compares slugs strictly. `array_search` without its strict flag compares loosely, so PHP also keeps a field slugged "1" when "01" or "1.0" is wanted.
- Php.Index: the integer conversion of a string offset reads only leading digits; a sign or leading blanks are not modelled. PHP 8 throws on a non-numeric string offset where PHP 5.4 to 7.x warns and reads offset 0; the model follows the latter.
- Funnels.InArray: compares strictly, not with PHP's loose `==`. The likely case where this differs: phases given as a list have integer keys, and in PHP 5 and 7 `in_array(0, array('x'))` is true, so a once test for phase 0 passes whenever the progress list holds a non-numeric string. The model keys phases by strings.
- The Facebook SDK and the HTTP calls are inputs:
  - the Graph API is an oracle from token to result;
  - the long-lived token exchange and `curl_get_file_contents` supply their `{token, expires}` result as an input.
- The avatar fetch in `bind_user` is not modelled; it does I/O.
- `js_sdk`, `channel` and the other buttons are not modelled; they render.
- The options page and the `init`, `at_fb_login`, `at_fb_connect` and `at_user_created` hooks are I/O glue, not modelled.
- Sso.SsoState.BindUser: takes the long-lived expiry as an integer. PHP converts the string that `parse_str` gives; that conversion is not modelled.
- Sso.FirstWithMeta: compares a given meta value with value equality, where WordPress compares as SQL strings. The rule that a null or empty value is dropped from the query is WordPress core behaviour, written into the model from its documented meaning.
- `json_encode` is not modelled for arbitrary data. The JSON lemma covers string values with the common escapes; `\uXXXX` escapes contain no slash and end in no backslash, so they would not change it.
- The `echo` and `die()` of `at_ajax_response` are not modelled; they are output.
- `at_buffer` and `at_get_string_mime_type` are not modelled: output buffering and `finfo` sniffing.
- Parts of `hm_get_template_part` are inputs or left out:
  - the template file lookup and `require` are inputs, the output text and the returned value;
  - the string and object forms of `wp_parse_args` are not modelled;
  - `serialize` is the ordered array itself.
- Functions.Copied: reads `call_user_method('get_id', $value)` as a call of `get_id`. That is PHP 5 behaviour; PHP 7 removed the function.
- Forms.Ucwords: upper-cases ASCII letters only. A processor class that does not exist (a fatal error in PHP) is not modelled.
- Funnels.RunTest: reads a truthy progress value that is not an array as `in_array` returning null. That value is not `=== false`, so the test passes.

## Findings

| source | as written | input that shows it | evidently intended | confidence | as-written member | corrected member |
|---|---|---|---|---|---|---|
| archetype.users.frontend.php:220-225 | `at_form` shows the validation errors and then calls `process()` whatever `validate` returned | a submission with a bad nonce whose processor returns true: the errors are shown and `succeed` still runs | process only a submission that passed validation, as the processor's "valid, sanitized input" comment says | medium, not executed | Forms.AtFormProcessesInvalidSubmission | Forms.FormRegistry.AtFormGuarded |
| archetype.funnel.php:61-62 | `if( !$next ) return;` also turns away a next phase whose key is falsy | phases `['0' => usermeta test on a missing key]` (or any list of phases, whose first key is 0): the first phase fails, yet nothing is hooked | hook whenever some phase fails (`$next !== false`) | medium, not executed | Funnels.HookGate, Funnels.PhaseZeroNeverHooked | Funnels.Funnel.Intended |
| archetype.facebook.php:144-154 | `find_user` passes the Facebook id to `get_users` as `meta_value` unchecked; WordPress drops a null or empty `meta_value`, so the query matches any user with an `at_fb_id` | an `at_fb_login` post whose `authResponse` has no `userID`: the id is null and the first Facebook-bound user is found, then bound and logged in | find a user by id only when the id is given and equals their `at_fb_id` | medium, not executed | Sso.NullIdFindsAnyBoundUser | Sso.SsoState.FindUserIntended |
| archetype.funnel.php:33-38 | `complete` redirects to '/' and ignores `$path` and `$redirect` | `complete($user, '/welcome')` redirects to '/' | redirect to `$path` when `$redirect` is true, as the parameter comment says | high, not executed | Funnels.CompleteIgnoresPath | Funnels.CompleteTo |
