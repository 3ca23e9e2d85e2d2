# itslanguage-js administrative SDK: BasicAuth and ChoiceChallenge core

A Dafny model of the decision logic in three files of the itslanguage-js
administrative SDK, a client for a language-assessment REST API:

- `BasicAuth`'s validating constructor (`src/administrative-sdk/basic-auth/basic-auth.js`):
  three type checks in a fixed order, each with its own error message, and
  `null` defaults for the optional `principal` and `credentials`.
- `ChoiceChallengeController` (`src/administrative-sdk/choice-challenge/choice-challenge-controller.js`):
  pre-flight argument checks, the URLs handed to the connection, and the
  reconstruction of challenges from response data, where `{choice}` pair
  records become plain choices and a list keeps its length and order.
- `BasicAuthController.createBasicAuth` (`administrative-sdk/basic-auth/basic-auth-controller.js`):
  the POST request, the three-way classification of the response (empty
  body, non-ok status, success) and the rebuilt `BasicAuth`, whose
  credentials come from the server only when they are truthy.

JavaScript values are the datatype `JsValues.JsValue` (undefined, null,
boolean, number, string, array, object). A promise is a
`Result<T, Rejection>`, where a rejection is an `Error(message)`, a
runtime `TypeError` (a property read on null or undefined, a `map` on a
non-array) or a plain thrown value. A controller call returns an
`Exchange`: the request it hands to the transport (None when it rejects
before any request) and how its promise settles. The transport's answer is
an input: the connection's reply for the ChoiceChallenge controller, and
the fetch `Response` together with a `parse` function standing for
`JSON.parse` for the BasicAuth controller. `new Date(x)` is the symbolic
`DateFrom(x)` and `JSON.stringify(x)` the symbolic `Stringified(x)`, except
that `JSON.stringify(undefined)` is not a string, which decides whether the
`Content-Type` header is added.

`administrative-sdk/basic-auth/basic-auth-controller.js` loads a sibling
`./basic-auth` that is not part of this model; it is assumed to behave as
`src/administrative-sdk/basic-auth/basic-auth.js`, and the controller model
reuses `BasicAuthModel.New` for it.

Two behaviours of the code are worth stating plainly:
- `getChoiceChallenge` (src/administrative-sdk/choice-challenge/choice-challenge-controller.js:56-58)
  rejects every non-string identifier with `challengeId parameter of type
  "string" is required` before any request, and accepts the empty string.
- `createBasicAuth` (administrative-sdk/basic-auth/basic-auth-controller.js:38-45)
  rejects an empty body with `status: statusText` whether or not the status
  is ok, and uses `response.ok` alone to tell success from a server error.

## Model

| member | source | states |
|---|---|---|
| JsValues.DefaultNull | src/administrative-sdk/basic-auth/basic-auth.js:13 | an undefined argument becomes null, and any other argument is kept as given |
| JsValues.Truthy | administrative-sdk/basic-auth/basic-auth-controller.js:53 | a value passes `if (v)` exactly when it is none of JavaScript's falsy values undefined, null, false, 0 and the empty string |
| JsValues.Prop | src/administrative-sdk/choice-challenge/choice-challenge-controller.js:37-41 | reading a property of null or undefined throws a TypeError; an object's own property is returned, and any other property reads as undefined |
| JsValues.NumberToString | administrative-sdk/basic-auth/basic-auth-controller.js:39 | the text of the status code is a non-empty string of decimal digits with no leading zero |
| JsValues.DigitsValueOfNumberToString | administrative-sdk/basic-auth/basic-auth-controller.js:39 | reading the digits of the status text back gives the status code: no information is lost |
| BasicAuthModel.New | src/administrative-sdk/basic-auth/basic-auth.js:13-46 | construction succeeds exactly when tenantId is a string and the defaulted principal and credentials are each a string or null; the object then holds exactly those values, never undefined, and no dates |
| BasicAuthModel.FirstRejected | src/administrative-sdk/basic-auth/basic-auth.js:14-27 | the parameter found is rejected and every earlier one is accepted; when none is found, every parameter is accepted |
| BasicAuthModel.NewReportsFirstRejected | src/administrative-sdk/basic-auth/basic-auth.js:14-27 | the constructor fails exactly when some argument has the wrong type, and its message is the template `<param> parameter of type "<type>" is required` for the first such parameter in the order tenantId, principal, credentials |
| BasicAuthModel.MessagesFollowTemplate | src/administrative-sdk/basic-auth/basic-auth.js:14-27 | each of the three literal messages is the template filled in with the parameter's name and accepted type union |
| BasicAuthModel.NewWithTenantIdOnly | src/administrative-sdk/basic-auth/basic-auth.js:13-14 | any string, the empty one included, is a valid tenantId, and omitted principal and credentials become null |
| BasicAuthModel.NewFromOwnFields | src/administrative-sdk/basic-auth/basic-auth.js:33-45 | constructing again from a constructed object's fields gives the same object |
| ChoiceChallengeController.ChoicesOf | src/administrative-sdk/choice-challenge/choice-challenge-controller.js:41 | mapping pairs to their `choice` succeeds exactly when no pair is null or undefined, and then keeps length and order with each element the pair's `choice` |
| ChoiceChallengeController.NormaliseChoices | src/administrative-sdk/choice-challenge/choice-challenge-controller.js:41 | `choices.map(pair => pair.choice)` succeeds exactly when choices is an array with no null or undefined pair, else fails with a TypeError; on success it keeps length and order, each element the pair's `choice` |
| ChoiceChallengeController.Reconstruct | src/administrative-sdk/choice-challenge/choice-challenge-controller.js:36-42 | a datum rebuilds exactly when it is not null or undefined and its choices are an array of non-null pairs; id, question and status are the datum's, created and updated are dates from the datum's fields, and choices are the pairs' `choice` values in order |
| ChoiceChallengeController.ReconstructAll | src/administrative-sdk/choice-challenge/choice-challenge-controller.js:80-87 | a list rebuilds exactly when every element does, into one challenge per element, in order and of equal length |
| ChoiceChallengeController.CreateChoiceChallenge | src/administrative-sdk/choice-challenge/choice-challenge-controller.js:29-44 | a non-instance rejects with the fixed message and no connection call; an instance is posted, serialised, to apiUrl + `/challenges/choice`; a connection rejection propagates unchanged, a reply is rebuilt |
| ChoiceChallengeController.GetChoiceChallenge | src/administrative-sdk/choice-challenge/choice-challenge-controller.js:55-69 | a non-string id rejects with the fixed message and no connection call; any string, empty included, is requested at apiUrl + `/challenges/choice/` + id; a rejection propagates unchanged, a reply is rebuilt |
| ChoiceChallengeController.GetChoiceChallenges | src/administrative-sdk/choice-challenge/choice-challenge-controller.js:77-88 | requests apiUrl + `/challenges/choice`; a rejection propagates unchanged, a non-array reply fails with a TypeError, an array is rebuilt element by element |
| ChoiceChallengeController.NormaliseChoicePairs | src/administrative-sdk/choice-challenge/choice-challenge-controller.js:41 | normalising `{choice}` pair records gives back exactly the plain choices they wrap |
| ChoiceChallengeController.ListAgreesWithGet | src/administrative-sdk/choice-challenge/choice-challenge-controller.js:60-87 | a list reply succeeds exactly when a get of each element would, and each listed challenge equals what that get resolves with |
| ChoiceChallengeController.CreateResultIgnoresArgument | src/administrative-sdk/choice-challenge/choice-challenge-controller.js:35-43 | the created challenge depends on the reply only, never on the argument that was sent |
| ChoiceChallengeController.GetUrlExtendsListUrl | src/administrative-sdk/choice-challenge/choice-challenge-controller.js:59 | the URL of one challenge is the collection URL followed by `/` and the identifier |
| ChoiceChallengeController.ReconstructServed | src/administrative-sdk/choice-challenge/choice-challenge-controller.js:62-66 | rebuilding the body a server sends for a challenge (choices as pairs, dates as their sources) gives back that challenge |
| BasicAuthController.Stringify | administrative-sdk/basic-auth/basic-auth-controller.js:23 | serialisation yields a string for every value but undefined, and that string is of the value itself |
| BasicAuthController.Headers.constructor | administrative-sdk/basic-auth/basic-auth-controller.js:24 | a new Headers object is empty |
| BasicAuthController.Headers.Append | administrative-sdk/basic-auth/basic-auth-controller.js:26-27 | appending adds exactly one header at the end and keeps the others |
| BasicAuthController.PrepareRequest | administrative-sdk/basic-auth/basic-auth-controller.js:22-33 | a POST of the serialised argument to apiUrl + `/basicauths`, with the JSON content-type header exactly when the body is a string and no other header |
| BasicAuthController.StatusLine | administrative-sdk/basic-auth/basic-auth-controller.js:39 | the empty-body rejection text is the status code's decimal digits, then `: `, then the status text unchanged |
| BasicAuthController.StatusLineNamesStatus | administrative-sdk/basic-auth/basic-auth-controller.js:39 | the empty-body rejection is the status code's digits, `: `, and the status text, and the code can be read back from it |
| BasicAuthController.Classify | administrative-sdk/basic-auth/basic-auth-controller.js:37-46 | resolves exactly when the body is non-empty and the status ok, with the parsed body; otherwise rejects with the status line for an empty body whatever `ok` is, and with the parsed payload itself for a server error |
| BasicAuthController.Rebuild | administrative-sdk/basic-auth/basic-auth-controller.js:48-57 | null or undefined data or argument gives a TypeError; otherwise succeeds exactly when the constructor accepts the response's tenantId and principal with the argument's credentials, failing with its message; tenantId and principal come from the response, dates from its fields, and credentials from the response when truthy, else from the argument |
| BasicAuthController.CreateBasicAuth | administrative-sdk/basic-auth/basic-auth-controller.js:21-58 | always makes the create request; an empty body rejects with the status line, a non-ok body rejects with the parsed payload unwrapped, an ok body is rebuilt |
| BasicAuthController.RebuildEcho | administrative-sdk/basic-auth/basic-auth-controller.js:48-57 | when the server echoes a constructed BasicAuth with two dates, the result is that BasicAuth carrying those dates |
| BasicAuthController.EmptyServerCredentialsKeepInput | administrative-sdk/basic-auth/basic-auth-controller.js:52-55 | server credentials that are falsy (empty, null, missing, false, 0) do not overwrite the credentials that were sent |

## Left out

- fetch, `Response.text()`, the `Headers` object's own behaviour beyond `append`, and promise scheduling: a response is a record and a promise a `Result`. A rejected `fetch(...)` or `response.text()` in `createBasicAuth` is not modelled; the source would pass that rejection on unchanged.
- The JSON text format: `JSON.parse` is the `parse` parameter and `JSON.stringify` is symbolic; an exception from `JSON.parse` on malformed non-empty text is not modelled (`parse` is total).
- Date parsing: `new Date(x)` is recorded as `DateFrom(x)`.
- The connection's `_secureAjaxPost`/`_secureAjaxGet`, authentication and settings: `apiUrl` is a parameter and the reply an input. The controllers' constructors, which only store the connection, have no counterpart.
- The `ChoiceChallenge` constructor is not part of this model: construction is record building, so any validation or exception in it is not modelled.
- Property reads: `Prop` returns undefined for every property that is not an object's own, so inherited members (an array's `length`, for one) are not modelled; every property read through `Prop` is an object's own, and a call to the inherited `.map` is modelled by a test that the value is an array.
- Numbers are reals: NaN is not represented, and a response status is a natural number.
- A TypeError is modelled by its kind only, not by its message.
- Normalised choices are whatever each pair's `choice` holds; the source does not check that they are strings, and neither does the model.
- test/pronunciation-challengeSpec.js exercises a PronunciationChallenge model and controller that are not part of this model.
