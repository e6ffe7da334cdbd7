# A verified model of the EagleBirth Python SDK core

The EagleBirth SDK wraps one vendor's REST API. That API covers e-mail, SMS and WhatsApp messages, one-time codes, QR codes, image recognition and app-user management. This project models the SDK's deterministic core in Dafny and proves properties of it. The core has three parts:

- **Client construction** (`EagleBirth.__init__`). The API key must be non-empty and start with `eb_test_` or `eb_live_`. A truthy `base_url` override is used as given. Otherwise a test key selects the sandbox and a live key selects production (`Client.Configure`, `Client.EagleBirth.New`).
- **The request routine** (`EagleBirth._make_request`). It builds the URL and the bearer header (`Client.EagleBirth.Prepare`). It then classifies what the HTTP call ends in (`Client.Classify`), checking in the source's order: status 429, then status 401, then an unparseable body, then the vendor's in-band `res == "failed"` marker. The three transport exceptions each become an `APIError` with no status. The HTTP call itself is a parameter: a function from the prepared call to an `Outcome`, which is either a raised transport exception or a status with a body.
- **The payload builders.** Each facade method of `resources.py` and of `resources/users.py` is an imperative Dafny method that returns the request descriptor it hands to `_make_request`: verb, endpoint, form data, file parts and query parameters. The facades fall into three groups:
  - the methods with optional string arguments start from a seeded dict and run the source's chain of `if arg: data[key] = arg` statements through `Payload.SetIfTruthy`;
  - the methods without optional arguments (`WhatsAppResource.Send`, `OTPResource.Validate` and `CheckValidated`, and `UserManagementResource.List`, `SignOut`, `RefreshToken`, `VerifyToken`, `ResetPassword`, `ValidateVerificationCode`) are specified by the exact map they send and its key set;
  - the image methods (`ImageProcessingResource.ExtractFaceDetails`, `ExtractText` and `CompareFaces`, and the image part of `QRCodeResource.Generate`) are specified by the selector `Payload.Place` and, for the one-image requests, by `ImageProcessingResource.OneImage`.

  Each method of the first group is proved against one specification function, `Payload.Fill`, which runs the statements one by one over the method's list of `Field(key, argument)` pairs. (`Delete`, `Reactivate` and `SendVerificationCode` of `UserManagementResource` belong to this group: their `username` and `user_id` arguments are optional.) `Payload.FillIsOverlay` proves that this equals overlaying the seed with a declarative map of the truthy arguments. `Payload.FillCarries` and the per-facade `…Carries` lemmas derive what each facade sends:
  - exactly the seed's keys plus the keys of its truthy arguments;
  - each truthy argument exactly as given;
  - the seed's mandatory fields unchanged.

  Image arguments go through a selector (`Payload.Place`):
  - a string with type `link` becomes a form field;
  - a readable object becomes a file part;
  - anything else is dropped;
  - no image ever lands in both.

Files: `common.dfy` (Option, Result, Python truthiness); `responses.dfy` (JSON values, response bodies and the error classes of `eaglebirth/exceptions.py`); `payload.dfy`; `client.dfy`; `resources.dfy` (one module per facade class of `eaglebirth/resources.py`); `users.dfy` (`UserManagementResource`).

Modelling decisions:
- Python's `if arg:` on an `Optional[str]` is `Truthy(arg)`: `None` and `""` are both skipped.
- `__init__` raising `ValueError` is a `Failure` result of the factory `EagleBirth.New`. The client's three settings are `const` fields, assigned once by the constructor.
- `response.ok` follows the `requests` library: false exactly for statuses 400 to 599. A status of 600 or above therefore counts as ok, as it does in `requests`.
- Facade methods return the request they would send. `Client.EagleBirth.MakeRequest` composes such a request with the transport and the classification.
- Python default argument values are Dafny default parameter values, and the parameters keep the source's order, so a positional call carries over.

## Model

| member | source | states |
|---|---|---|
| `Payload.SetIfTruthy` | eaglebirth/resources/users.py:26-36 | the dict after one `if arg: data[key] = arg`: key written with the argument's text exactly when it is truthy; running it and then the remaining statements equals the fold over all of them |
| `Payload.FillIsOverlay` | eaglebirth/resources/users.py:25-36 | running the conditional insertions one by one equals the seed overlaid with the truthy arguments, a later key winning |
| `Payload.AssignedKeys` | eaglebirth/resources/users.py:26-36 | a key is contributed if and only if some statement for it has a truthy argument |
| `Payload.AssignedValue` | eaglebirth/resources/users.py:26-36 | with distinct keys, each truthy argument is contributed exactly as given |
| `Payload.FillAllFalsy` | eaglebirth/resources/users.py:25-38 | when every optional argument is `None` or empty, the seed is sent unchanged |
| `Payload.FillKeys` | eaglebirth/resources/users.py:25-36 | the key set sent is the seed's keys plus the truthy arguments' keys and nothing else |
| `Payload.KeepsSeed` | eaglebirth/resources.py:42-53 | a seeded entry whose key no statement writes is sent as seeded |
| `Payload.FillCarries` | eaglebirth/resources.py:42-53 | for distinct keys: exact key set, every truthy argument sent as given, every untouched seed entry kept |
| `Payload.Place` | eaglebirth/resources.py:274-277 | the selector: a form field iff the image is a string typed `link`, a file part iff it is readable (whatever its type flag), with the given URL or handle |
| `Payload.NeverBoth` | eaglebirth/resources.py:274-277 | the selector never puts one image in both the form dict and the files dict |
| `Payload.FilesArg` | eaglebirth/resources.py:283 | `files if files else None`: no files argument exactly when no file part was selected |
| `Payload.SelectImage` | eaglebirth/resources.py:311-319 | the two dicts after the selector: field added for a `link` string, file part added for a readable object, both unchanged otherwise |
| `Client.StartsWithAny` | eaglebirth/client.py:57 | `str.startswith(tuple)`: true iff some prefix of the tuple starts the string |
| `Client.StartsWithEitherPrefix` | eaglebirth/client.py:57 | the tuple test on `('eb_test_', 'eb_live_')` is exactly key acceptance |
| `Client.PrefixesExclusive` | eaglebirth/client.py:65-68 | no key is both a test and a live key, so the environment choice is unambiguous |
| `Client.Configure` | eaglebirth/client.py:54-68 | empty key gives "API key is required" first; a non-empty key with neither prefix gives the format message; success iff the key has a recognized prefix; the key and timeout are kept; a truthy override is used verbatim, else test gives the sandbox and live gives production |
| `Client.OverrideWins` | eaglebirth/client.py:63-68 | with a truthy override the URL does not depend on the key's environment; an empty override behaves like none; without one a test and a live key get different URLs |
| `Client.EagleBirth.constructor` | eaglebirth/client.py:60-70 | needs an accepted key and a non-empty base URL, as only `__init__`'s checks let through; stores the three settings once and establishes `Valid` |
| `Client.EagleBirth.New` | eaglebirth/client.py:40-70 | fails exactly when `Configure` fails, with the same error; otherwise a fresh, valid client holding `Configure`'s settings |
| `Client.EagleBirth.Prepare` | eaglebirth/client.py:91-105 | on a valid client: the URL splits into the base URL followed by the endpoint; the only header is `Authorization`, which is `Bearer ` followed by the key, and that key has a recognized prefix; payload and timeout pass through |
| `Client.Classify` | eaglebirth/client.py:107-143 | rate-limit error iff status 429 and authentication error iff status 401, whatever the body, with the exact messages; transport exceptions give `APIError` with their message and no status or response; success iff a response that is none of the error cases; success returns the parsed body unchanged (any status) or `{"data": text}`; any other `APIError` carries the status, the response and the body's `message`, or "Unknown error", or "API request failed: " and the text; never a `ValidationError` |
| `Client.StatusCodeMeansResponse` | eaglebirth/client.py:121-143 | an `APIError` has a status code iff a response was received, and then also carries the response |
| `Client.StatusBeforeBody` | eaglebirth/client.py:108-113 | for 429 and 401 the body does not influence the result |
| `Client.EagleBirth.MakeRequest` | eaglebirth/client.py:82-143 | on a valid client, the result is the classification of what the transport answers to the prepared call |
| `EmailResource.Send` | eaglebirth/resources.py:42-55 | POST `/app/messaging/email/`, no files or params, data the seed `email`, `subject`, `message` with `reply_to`, `header`, `salutation` run in that order |
| `EmailResource.SendCarries` | eaglebirth/resources.py:48-53 | over any seed: the seed's fields kept, the three optional fields added iff truthy, as given; nothing else |
| `EmailResource.SendSends` | eaglebirth/resources.py:42-53 | on `send`'s own seed: `email`, `subject`, `message` always sent as given; `reply_to`, `header`, `salutation` each iff truthy, as given; nothing else |
| `SMSResource.Send` | eaglebirth/resources.py:80-90 | POST `/app/messaging/sms/` with `phone_number`, `message` and the optional `sending_method`, `provider` in that order |
| `SMSResource.SendCarries` | eaglebirth/resources.py:85-88 | over any seed: the seed's fields kept; `sending_method` and `provider` added iff truthy; nothing else |
| `SMSResource.SendSends` | eaglebirth/resources.py:80-88 | on `send`'s own seed: `phone_number` and `message` always sent as given; `sending_method` and `provider` each iff truthy, as given; nothing else |
| `SMSResource.GetPrices` | eaglebirth/resources.py:92-98 | POST `/app/messaging/sms/get_prices_for_sms/` with `phone_number` run over an empty dict |
| `SMSResource.GetPricesCarries` | eaglebirth/resources.py:94-96 | `phone_number` is sent iff truthy, and nothing else |
| `SMSResource.GetPricesWithoutNumberSendsNothing` | eaglebirth/resources.py:92-98 | with no number the dict is empty |
| `WhatsAppResource.Send` | eaglebirth/resources.py:104-127 | POST `/app/messaging/whatsapp/` with exactly `phone_number`, `message`, `template` (default `normal_message`) |
| `OTPResource.Send` | eaglebirth/resources.py:133-172 | POST `/app/code_validation/` with `validation_type` and the numbers `code_length`, `timeout`, `trials` (defaults 6, 180, 3), then `email`, `phone_number`, `provider` in that order |
| `OTPResource.SendCarries` | eaglebirth/resources.py:158-170 | over any seed: the seed's fields kept; the optional three added iff truthy; nothing else |
| `OTPResource.SendSends` | eaglebirth/resources.py:158-170 | on `send`'s own seed: `validation_type`, `code_length`, `timeout`, `trials` always sent as given; `email`, `phone_number`, `provider` each iff truthy, as given; nothing else |
| `OTPResource.Validate` | eaglebirth/resources.py:174-190 | POST `/app/code_validation/validate_code_sent/` with exactly `code_id` and `code` |
| `OTPResource.CheckValidated` | eaglebirth/resources.py:192-203 | POST `/app/code_validation/check_validated_code/` with exactly `code_id` |
| `QRCodeResource.LogoPlacement` | eaglebirth/resources.py:244-248 | a falsy logo is dropped; a readable logo is a file part; the logo is a form field iff it is a non-empty string typed `link` |
| `QRCodeResource.Generate` | eaglebirth/resources.py:209-250 | POST `/app/qr_code_generator/`; data is `text`, then the fold of `color`, `background_color`, `qr_type`, `image_type`, then the logo field; a files argument iff the logo is readable, and then exactly `{image}` |
| `QRCodeResource.GenerateSends` | eaglebirth/resources.py:232-248 | `text` always sent; the style settings iff truthy and as given; `image_type` iff non-empty (so by default); `image` in data iff a non-empty `link` string |
| `ImageProcessingResource.OneImageSelects` | eaglebirth/resources.py:271-284 | a one-image request sends `image_type` as given, `image` as a field iff a `link` string, a files argument iff readable, then exactly `{image}`, and never both |
| `ImageProcessingResource.SendOneImage` | eaglebirth/resources.py:271-284 | builds the one-image request, with files iff readable and the `image` field iff a `link` string |
| `ImageProcessingResource.ExtractFaceDetails` | eaglebirth/resources.py:256-284 | the one-image request to `/app/image_processing/get_details_from_an_image/` |
| `ImageProcessingResource.ExtractText` | eaglebirth/resources.py:328-356 | the one-image request to `/app/image_processing/get_text_from_image/` |
| `ImageProcessingResource.CompareFaces` | eaglebirth/resources.py:286-326 | both type flags always sent; each image placed independently by its own flag; a files argument iff either image is readable, holding exactly the readable ones |
| `UserManagementResource.Create` | eaglebirth/resources/users.py:10-38 | POST `/app/users/`, no files or params, data the eleven optional fields run over an empty dict in source order |
| `UserManagementResource.CreateCarries` | eaglebirth/resources/users.py:25-36 | the key set is exactly the truthy arguments, each sent as given |
| `UserManagementResource.CreateWithDefaultsSendsNothing` | eaglebirth/resources/users.py:25-38 | an all-default call sends `{}` |
| `UserManagementResource.Get` | eaglebirth/resources/users.py:40-54 | POST `/app/users/get_app_user/` with the lookup fields run over an empty dict; no precondition |
| `UserManagementResource.LookupCarries` | eaglebirth/resources/users.py:48-52 | `get` and `exists` send exactly the truthy subset of `username`, `user_id`, `authentication_type`, `authentication_type_id`, as given |
| `UserManagementResource.LookupWithoutIdentifiersSendsNothing` | eaglebirth/resources/users.py:107-113 | with no identifier at all the lookup still goes out, with an empty dict |
| `UserManagementResource.List` | eaglebirth/resources/users.py:56-59 | POST `/app/users/get_app_users/` with exactly `page` and `limit` (defaults 1 and 20) |
| `UserManagementResource.Update` | eaglebirth/resources/users.py:61-89 | POST `/app/users/update_app_user/` with the eleven optional fields in source order |
| `UserManagementResource.UpdateCarries` | eaglebirth/resources/users.py:76-87 | exactly the truthy arguments, each as given |
| `UserManagementResource.Delete` | eaglebirth/resources/users.py:91-97 | POST `/app/users/delete_app_user/` with `username`, `user_id` run over an empty dict |
| `UserManagementResource.IdentityCarries` | eaglebirth/resources/users.py:157-161 | over any seed: its keys plus exactly the truthy identifiers, each as given, the seed's own field kept |
| `UserManagementResource.Exists` | eaglebirth/resources/users.py:99-113 | POST `/app/users/check_if_app_user_exists/` with the lookup fields run over an empty dict; no precondition |
| `UserManagementResource.SignIn` | eaglebirth/resources/users.py:115-133 | POST `/app/users/sign_app_user_in/` with the six credential fields in source order |
| `UserManagementResource.SignInCarries` | eaglebirth/resources/users.py:125-131 | exactly the truthy credentials, each as given |
| `UserManagementResource.SignOut` | eaglebirth/resources/users.py:135-138 | POST `/app/users/sign_app_user_out/` with exactly `{refresh_token}` |
| `UserManagementResource.RefreshToken` | eaglebirth/resources/users.py:140-143 | POST `/app/users/refresh_signin_token/` with exactly `{refresh}` |
| `UserManagementResource.VerifyToken` | eaglebirth/resources/users.py:145-148 | POST `/app/users/verify_signin_token/` with exactly `{token}` |
| `UserManagementResource.UpdatePassword` | eaglebirth/resources/users.py:150-161 | POST `/app/users/update_app_user_password/`, `password` seeded, then `username`, `user_id` |
| `UserManagementResource.UpdatePasswordSends` | eaglebirth/resources/users.py:157-161 | `password` always sent as given; `username`, `user_id` each iff truthy, as given; nothing else |
| `UserManagementResource.ResetPassword` | eaglebirth/resources/users.py:163-166 | POST `/app/users/reset_password_for_app_user/` with exactly `code`, `code_id`, `password` |
| `UserManagementResource.UpdateStatus` | eaglebirth/resources/users.py:168-179 | POST `/app/users/update_app_user_status/`, `status` seeded, then `username`, `user_id` |
| `UserManagementResource.UpdateStatusSends` | eaglebirth/resources/users.py:175-179 | `status` always sent as given; `username`, `user_id` each iff truthy, as given; nothing else |
| `UserManagementResource.UpdateType` | eaglebirth/resources/users.py:181-192 | POST `/app/users/update_app_user_type/`, the `user_type` argument seeded under key `type`, then `username`, `user_id` |
| `UserManagementResource.UpdateTypeSends` | eaglebirth/resources/users.py:188-192 | `user_type` always sent as given under key `type`; `username`, `user_id` each iff truthy, as given; nothing else |
| `UserManagementResource.Reactivate` | eaglebirth/resources/users.py:194-200 | POST `/app/users/reactivate_app_user/` with `username`, `user_id` run over an empty dict |
| `UserManagementResource.SendVerificationCode` | eaglebirth/resources/users.py:202-212 | POST `/app/users/send_code_via_email_to_app_user/` with `username`, `user_id` run over an empty dict |
| `UserManagementResource.ValidateVerificationCode` | eaglebirth/resources/users.py:214-217 | POST `/app/users/validate_code_via_email_for_app_user/` with exactly `code`, `code_id` |

## Left out

- The HTTP call `requests.request(...)` (eaglebirth/client.py:97-105) is abstracted as a function from the prepared call to its outcome. The real-time effect of `timeout` is not modelled, and neither are multipart encoding, JSON parsing, or the way `requests` drops `None` values.
- JSON numbers are integers: floating-point values are not modelled.
- A parsed body is always a JSON object. For a body that parses to a list or scalar, the source calls `.get` on it and fails with an uncaught `AttributeError`; that case is not modelled.
- File contents and the `hasattr(image, 'read')` duck typing are not modelled: a readable object is an opaque `Handle`.
- Image arguments: `Image.Other` stands for `None` and for any object that is neither a string nor readable. The source treats a non-None such object as truthy in `generate`, but it is dropped either way.
- The resource attributes that `__init__` creates (`client.py:73-80`) and the facades' back-reference to the client (`BaseResource`, resources.py:9-13) are not modelled. The facades return their request descriptor instead of calling the client.
- `StorageResource` is imported by client.py:15 and re-exported by resources/__init__.py:27, but no such class exists in resources.py. No storage endpoints are modelled. As written, that import fails.
- eaglebirth/resources/__init__.py is not part of this model: it only loads resources.py dynamically. The same goes for eaglebirth/__init__.py, which only re-exports names, and for examples/basic_usage.py, demo code that does console I/O. The module imported at users.py:4 (`.base`) is not part of this model either.
- No local validation is modelled, because the source has none. `ValidationError` is declared at exceptions.py:24-26 and never raised, and `Client.Classify` provably never produces it. `get` and `exists` (users.py:48-54, 107-113) send the request even when no identifier at all is given (`UserManagementResource.LookupWithoutIdentifiersSendsNothing`).
- The image selector (resources.py:244-248, 274-277) drops a string whose type flag is not `link` silently: it becomes neither a form field nor a file part (`Payload.Place`).
