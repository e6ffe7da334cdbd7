/** The payload builders of `UserManagementResource`
    (eaglebirth/resources/users.py). Every method starts from an empty or
    seeded dict, adds each optional argument only when it is truthy, and hands
    the dict as form data to a POST on its fixed endpoint, with no file part
    and no query parameters. Each method returns that request descriptor. */
module UserManagementResource {

  import opened Common
  import opened Payload

  /** The optional arguments `create` tests, in source order. */
  function CreateFields(email: Option<string> := None,
                        username: Option<string> := None,
                        firstName: Option<string> := None,
                        middleName: Option<string> := None,
                        lastName: Option<string> := None,
                        phone: Option<string> := None,
                        birth: Option<string> := None,
                        password: Option<string> := None,
                        refererId: Option<string> := None,
                        authenticationType: Option<string> := None,
                        authenticationTypeId: Option<string> := None)
    : seq<Field>
  {
    [Field("email", email),
     Field("username", username),
     Field("first_name", firstName),
     Field("middle_name", middleName),
     Field("last_name", lastName),
     Field("phone", phone),
     Field("birth", birth),
     Field("password", password),
     Field("referer_id", refererId),
     Field("authentication_type", authenticationType),
     Field("authentication_type_id", authenticationTypeId)]
  }

  /** CreateFields tests each key once. */
  lemma CreateFieldsDistinct(email: Option<string>,
                             username: Option<string>,
                             firstName: Option<string>,
                             middleName: Option<string>,
                             lastName: Option<string>,
                             phone: Option<string>,
                             birth: Option<string>,
                             password: Option<string>,
                             refererId: Option<string>,
                             authenticationType: Option<string>,
                             authenticationTypeId: Option<string>)
    ensures DistinctKeys(CreateFields(email, username, firstName, middleName, lastName, phone, birth, password, refererId, authenticationType, authenticationTypeId))
  {
  }

  /** `create` sends exactly its truthy arguments, each as given. Stated for
      any seed; `Create` starts from `map[]`, so there the key set is
      `TruthyKeys` alone. */
  lemma CreateCarries(seed: Data,
                      email: Option<string>,
                      username: Option<string>,
                      firstName: Option<string>,
                      middleName: Option<string>,
                      lastName: Option<string>,
                      phone: Option<string>,
                      birth: Option<string>,
                      password: Option<string>,
                      refererId: Option<string>,
                      authenticationType: Option<string>,
                      authenticationTypeId: Option<string>)
    ensures var fs := CreateFields(email, username, firstName, middleName, lastName, phone, birth, password, refererId, authenticationType, authenticationTypeId); Carries(Fill(seed, fs), seed, fs)
  {
    CreateFieldsDistinct(email, username, firstName, middleName, lastName, phone, birth, password, refererId, authenticationType, authenticationTypeId);
    FillCarries(seed, CreateFields(email, username, firstName, middleName, lastName, phone, birth, password, refererId, authenticationType, authenticationTypeId));
  }

  /** The optional arguments `update` tests, in source order. */
  function UpdateFields(username: Option<string> := None,
                        userId: Option<string> := None,
                        email: Option<string> := None,
                        firstName: Option<string> := None,
                        middleName: Option<string> := None,
                        lastName: Option<string> := None,
                        phone: Option<string> := None,
                        birth: Option<string> := None,
                        refererId: Option<string> := None,
                        authenticationType: Option<string> := None,
                        authenticationTypeId: Option<string> := None)
    : seq<Field>
  {
    [Field("username", username),
     Field("user_id", userId),
     Field("email", email),
     Field("first_name", firstName),
     Field("middle_name", middleName),
     Field("last_name", lastName),
     Field("phone", phone),
     Field("birth", birth),
     Field("referer_id", refererId),
     Field("authentication_type", authenticationType),
     Field("authentication_type_id", authenticationTypeId)]
  }

  /** UpdateFields tests each key once. */
  lemma UpdateFieldsDistinct(username: Option<string>,
                             userId: Option<string>,
                             email: Option<string>,
                             firstName: Option<string>,
                             middleName: Option<string>,
                             lastName: Option<string>,
                             phone: Option<string>,
                             birth: Option<string>,
                             refererId: Option<string>,
                             authenticationType: Option<string>,
                             authenticationTypeId: Option<string>)
    ensures DistinctKeys(UpdateFields(username, userId, email, firstName, middleName, lastName, phone, birth, refererId, authenticationType, authenticationTypeId))
  {
  }

  /** `update` sends exactly its truthy arguments, each as given. Stated for
      any seed; `Update` starts from `map[]`. */
  lemma UpdateCarries(seed: Data,
                      username: Option<string>,
                      userId: Option<string>,
                      email: Option<string>,
                      firstName: Option<string>,
                      middleName: Option<string>,
                      lastName: Option<string>,
                      phone: Option<string>,
                      birth: Option<string>,
                      refererId: Option<string>,
                      authenticationType: Option<string>,
                      authenticationTypeId: Option<string>)
    ensures var fs := UpdateFields(username, userId, email, firstName, middleName, lastName, phone, birth, refererId, authenticationType, authenticationTypeId); Carries(Fill(seed, fs), seed, fs)
  {
    UpdateFieldsDistinct(username, userId, email, firstName, middleName, lastName, phone, birth, refererId, authenticationType, authenticationTypeId);
    FillCarries(seed, UpdateFields(username, userId, email, firstName, middleName, lastName, phone, birth, refererId, authenticationType, authenticationTypeId));
  }

  /** The identifying arguments `get` and `exists` test, in source order. */
  function LookupFields(username: Option<string> := None,
                        userId: Option<string> := None,
                        authenticationType: Option<string> := None,
                        authenticationTypeId: Option<string> := None)
    : seq<Field>
  {
    [Field("username", username),
     Field("user_id", userId),
     Field("authentication_type", authenticationType),
     Field("authentication_type_id", authenticationTypeId)]
  }

  /** LookupFields tests each key once. */
  lemma LookupFieldsDistinct(username: Option<string>,
                             userId: Option<string>,
                             authenticationType: Option<string>,
                             authenticationTypeId: Option<string>)
    ensures DistinctKeys(LookupFields(username, userId, authenticationType, authenticationTypeId))
  {
  }

  /** `get` and `exists` send exactly their truthy identifying arguments, each
      as given. Stated for any seed; `Get` and `Exists` start from `map[]`. */
  lemma LookupCarries(seed: Data,
                      username: Option<string>,
                      userId: Option<string>,
                      authenticationType: Option<string>,
                      authenticationTypeId: Option<string>)
    ensures var fs := LookupFields(username, userId, authenticationType, authenticationTypeId); Carries(Fill(seed, fs), seed, fs)
  {
    LookupFieldsDistinct(username, userId, authenticationType, authenticationTypeId);
    FillCarries(seed, LookupFields(username, userId, authenticationType, authenticationTypeId));
  }

  /** The credentials `sign_in` tests, in source order. */
  function SignInFields(username: Option<string> := None,
                        password: Option<string> := None,
                        authenticationType: Option<string> := None,
                        authenticationTypeId: Option<string> := None,
                        code: Option<string> := None,
                        codeVerifier: Option<string> := None)
    : seq<Field>
  {
    [Field("username", username),
     Field("password", password),
     Field("authentication_type", authenticationType),
     Field("authentication_type_id", authenticationTypeId),
     Field("code", code),
     Field("code_verifier", codeVerifier)]
  }

  /** SignInFields tests each key once. */
  lemma SignInFieldsDistinct(username: Option<string>,
                             password: Option<string>,
                             authenticationType: Option<string>,
                             authenticationTypeId: Option<string>,
                             code: Option<string>,
                             codeVerifier: Option<string>)
    ensures DistinctKeys(SignInFields(username, password, authenticationType, authenticationTypeId, code, codeVerifier))
  {
  }

  /** `sign_in` sends exactly its truthy credentials, each as given. Stated
      for any seed; `SignIn` starts from `map[]`. */
  lemma SignInCarries(seed: Data,
                      username: Option<string>,
                      password: Option<string>,
                      authenticationType: Option<string>,
                      authenticationTypeId: Option<string>,
                      code: Option<string>,
                      codeVerifier: Option<string>)
    ensures var fs := SignInFields(username, password, authenticationType, authenticationTypeId, code, codeVerifier); Carries(Fill(seed, fs), seed, fs)
  {
    SignInFieldsDistinct(username, password, authenticationType, authenticationTypeId, code, codeVerifier);
    FillCarries(seed, SignInFields(username, password, authenticationType, authenticationTypeId, code, codeVerifier));
  }

  /** The pair `username`, `user_id` that `update_password`, `update_status`, `update_type`, `delete`, `reactivate` and `send_verification_code` test, in that order. */
  function IdentityFields(username: Option<string> := None,
                          userId: Option<string> := None)
    : seq<Field>
  {
    [Field("username", username),
     Field("user_id", userId)]
  }

  /** IdentityFields tests each key once. */
  lemma IdentityFieldsDistinct(username: Option<string>,
                               userId: Option<string>)
    ensures DistinctKeys(IdentityFields(username, userId))
  {
  }

  /** Those six methods send their seed (the mandatory field, if any, whose
      key is neither `username` nor `user_id`) and exactly the truthy
      identifiers, each as given. `Delete`, `Reactivate` and
      `SendVerificationCode` start from `map[]`; the `…Sends` lemmas below
      state it on the seeds of the other three. */
  lemma IdentityCarries(seed: Data,
                        username: Option<string>,
                        userId: Option<string>)
    ensures var fs := IdentityFields(username, userId); Carries(Fill(seed, fs), seed, fs)
  {
    IdentityFieldsDistinct(username, userId);
    FillCarries(seed, IdentityFields(username, userId));
  }

  /** The dict `UpdatePassword` builds, on its own seed: `password` as given, and `username`
      and `user_id` each iff truthy, as given; nothing else. */
  lemma UpdatePasswordSends(password: string, username: Option<string>, userId: Option<string>)
    ensures var d := Fill(map["password" := Text(password)], IdentityFields(username, userId));
            && d.Keys == {"password"} + OptKey("username", username) + OptKey("user_id", userId)
            && d["password"] == Text(password)
            && SentAs(d, "username", username) && SentAs(d, "user_id", userId)
  {
    FillTwo(map["password" := Text(password)], Field("username", username), Field("user_id", userId));
  }

  /** The dict `UpdateStatus` builds, on its own seed: `status` as given, and `username`
      and `user_id` each iff truthy, as given; nothing else. */
  lemma UpdateStatusSends(status: string, username: Option<string>, userId: Option<string>)
    ensures var d := Fill(map["status" := Text(status)], IdentityFields(username, userId));
            && d.Keys == {"status"} + OptKey("username", username) + OptKey("user_id", userId)
            && d["status"] == Text(status)
            && SentAs(d, "username", username) && SentAs(d, "user_id", userId)
  {
    FillTwo(map["status" := Text(status)], Field("username", username), Field("user_id", userId));
  }

  /** The dict `UpdateType` builds, on its own seed: `type` as given, and `username`
      and `user_id` each iff truthy, as given; nothing else. */
  lemma UpdateTypeSends(userType: string, username: Option<string>, userId: Option<string>)
    ensures var d := Fill(map["type" := Text(userType)], IdentityFields(username, userId));
            && d.Keys == {"type"} + OptKey("username", username) + OptKey("user_id", userId)
            && d["type"] == Text(userType)
            && SentAs(d, "username", username) && SentAs(d, "user_id", userId)
  {
    FillTwo(map["type" := Text(userType)], Field("username", username), Field("user_id", userId));
  }

  /** `create`: registers an app user with whichever of its eleven optional arguments are truthy. */
  method Create(email: Option<string> := None,
                username: Option<string> := None,
                firstName: Option<string> := None,
                middleName: Option<string> := None,
                lastName: Option<string> := None,
                phone: Option<string> := None,
                birth: Option<string> := None,
                password: Option<string> := None,
                refererId: Option<string> := None,
                authenticationType: Option<string> := None,
                authenticationTypeId: Option<string> := None)
    returns (r: Request)
    ensures r == FormPost("/app/users/", Fill(map[], CreateFields(email, username, firstName, middleName, lastName, phone, birth, password, refererId, authenticationType, authenticationTypeId)))
  {
    ghost var pending := CreateFields(email, username, firstName, middleName, lastName, phone, birth, password, refererId, authenticationType, authenticationTypeId);
    var data: Data := map[];
    data, pending := SetIfTruthy(data, pending, "email", email);
    data, pending := SetIfTruthy(data, pending, "username", username);
    data, pending := SetIfTruthy(data, pending, "first_name", firstName);
    data, pending := SetIfTruthy(data, pending, "middle_name", middleName);
    data, pending := SetIfTruthy(data, pending, "last_name", lastName);
    data, pending := SetIfTruthy(data, pending, "phone", phone);
    data, pending := SetIfTruthy(data, pending, "birth", birth);
    data, pending := SetIfTruthy(data, pending, "password", password);
    data, pending := SetIfTruthy(data, pending, "referer_id", refererId);
    data, pending := SetIfTruthy(data, pending, "authentication_type", authenticationType);
    data, pending := SetIfTruthy(data, pending, "authentication_type_id", authenticationTypeId);
    r := FormPost("/app/users/", data);
  }

  /** `get`: fetches one user by whichever identifying arguments are truthy; with none of them the request is still sent. */
  method Get(username: Option<string> := None,
             userId: Option<string> := None,
             authenticationType: Option<string> := None,
             authenticationTypeId: Option<string> := None)
    returns (r: Request)
    ensures r == FormPost("/app/users/get_app_user/", Fill(map[], LookupFields(username, userId, authenticationType, authenticationTypeId)))
  {
    ghost var pending := LookupFields(username, userId, authenticationType, authenticationTypeId);
    var data: Data := map[];
    data, pending := SetIfTruthy(data, pending, "username", username);
    data, pending := SetIfTruthy(data, pending, "user_id", userId);
    data, pending := SetIfTruthy(data, pending, "authentication_type", authenticationType);
    data, pending := SetIfTruthy(data, pending, "authentication_type_id", authenticationTypeId);
    r := FormPost("/app/users/get_app_user/", data);
  }

  /** `list`: one page of the app's users; `page` and `limit` are always sent. */
  method List(page: int := 1,
              limit: int := 20)
    returns (r: Request)
    ensures r == FormPost("/app/users/get_app_users/", map["page" := Number(page), "limit" := Number(limit)])
    ensures r.data.Keys == {"page", "limit"}
  {
    var data: Data := map["page" := Number(page), "limit" := Number(limit)];
    r := FormPost("/app/users/get_app_users/", data);
  }

  /** `update`: changes the user details whose arguments are truthy. */
  method Update(username: Option<string> := None,
                userId: Option<string> := None,
                email: Option<string> := None,
                firstName: Option<string> := None,
                middleName: Option<string> := None,
                lastName: Option<string> := None,
                phone: Option<string> := None,
                birth: Option<string> := None,
                refererId: Option<string> := None,
                authenticationType: Option<string> := None,
                authenticationTypeId: Option<string> := None)
    returns (r: Request)
    ensures r == FormPost("/app/users/update_app_user/", Fill(map[], UpdateFields(username, userId, email, firstName, middleName, lastName, phone, birth, refererId, authenticationType, authenticationTypeId)))
  {
    ghost var pending := UpdateFields(username, userId, email, firstName, middleName, lastName, phone, birth, refererId, authenticationType, authenticationTypeId);
    var data: Data := map[];
    data, pending := SetIfTruthy(data, pending, "username", username);
    data, pending := SetIfTruthy(data, pending, "user_id", userId);
    data, pending := SetIfTruthy(data, pending, "email", email);
    data, pending := SetIfTruthy(data, pending, "first_name", firstName);
    data, pending := SetIfTruthy(data, pending, "middle_name", middleName);
    data, pending := SetIfTruthy(data, pending, "last_name", lastName);
    data, pending := SetIfTruthy(data, pending, "phone", phone);
    data, pending := SetIfTruthy(data, pending, "birth", birth);
    data, pending := SetIfTruthy(data, pending, "referer_id", refererId);
    data, pending := SetIfTruthy(data, pending, "authentication_type", authenticationType);
    data, pending := SetIfTruthy(data, pending, "authentication_type_id", authenticationTypeId);
    r := FormPost("/app/users/update_app_user/", data);
  }

  /** `delete`: removes the user named by the truthy identifiers. */
  method Delete(username: Option<string> := None,
                userId: Option<string> := None)
    returns (r: Request)
    ensures r == FormPost("/app/users/delete_app_user/", Fill(map[], IdentityFields(username, userId)))
  {
    ghost var pending := IdentityFields(username, userId);
    var data: Data := map[];
    data, pending := SetIfTruthy(data, pending, "username", username);
    data, pending := SetIfTruthy(data, pending, "user_id", userId);
    r := FormPost("/app/users/delete_app_user/", data);
  }

  /** `exists`: asks whether a user matching the truthy identifying arguments exists. */
  method Exists(username: Option<string> := None,
                userId: Option<string> := None,
                authenticationType: Option<string> := None,
                authenticationTypeId: Option<string> := None)
    returns (r: Request)
    ensures r == FormPost("/app/users/check_if_app_user_exists/", Fill(map[], LookupFields(username, userId, authenticationType, authenticationTypeId)))
  {
    ghost var pending := LookupFields(username, userId, authenticationType, authenticationTypeId);
    var data: Data := map[];
    data, pending := SetIfTruthy(data, pending, "username", username);
    data, pending := SetIfTruthy(data, pending, "user_id", userId);
    data, pending := SetIfTruthy(data, pending, "authentication_type", authenticationType);
    data, pending := SetIfTruthy(data, pending, "authentication_type_id", authenticationTypeId);
    r := FormPost("/app/users/check_if_app_user_exists/", data);
  }

  /** `sign_in`: password or third-party sign-in with the truthy credentials. */
  method SignIn(username: Option<string> := None,
                password: Option<string> := None,
                authenticationType: Option<string> := None,
                authenticationTypeId: Option<string> := None,
                code: Option<string> := None,
                codeVerifier: Option<string> := None)
    returns (r: Request)
    ensures r == FormPost("/app/users/sign_app_user_in/", Fill(map[], SignInFields(username, password, authenticationType, authenticationTypeId, code, codeVerifier)))
  {
    ghost var pending := SignInFields(username, password, authenticationType, authenticationTypeId, code, codeVerifier);
    var data: Data := map[];
    data, pending := SetIfTruthy(data, pending, "username", username);
    data, pending := SetIfTruthy(data, pending, "password", password);
    data, pending := SetIfTruthy(data, pending, "authentication_type", authenticationType);
    data, pending := SetIfTruthy(data, pending, "authentication_type_id", authenticationTypeId);
    data, pending := SetIfTruthy(data, pending, "code", code);
    data, pending := SetIfTruthy(data, pending, "code_verifier", codeVerifier);
    r := FormPost("/app/users/sign_app_user_in/", data);
  }

  /** `sign_out`: invalidates a refresh token, sent as the only field. */
  method SignOut(refreshToken: string)
    returns (r: Request)
    ensures r == FormPost("/app/users/sign_app_user_out/", map["refresh_token" := Text(refreshToken)])
    ensures r.data.Keys == {"refresh_token"}
  {
    var data: Data := map["refresh_token" := Text(refreshToken)];
    r := FormPost("/app/users/sign_app_user_out/", data);
  }

  /** `refresh_token`: renews a session; the token travels under key `refresh`. */
  method RefreshToken(refresh: string)
    returns (r: Request)
    ensures r == FormPost("/app/users/refresh_signin_token/", map["refresh" := Text(refresh)])
    ensures r.data.Keys == {"refresh"}
  {
    var data: Data := map["refresh" := Text(refresh)];
    r := FormPost("/app/users/refresh_signin_token/", data);
  }

  /** `verify_token`: asks whether a session token is valid. */
  method VerifyToken(token: string)
    returns (r: Request)
    ensures r == FormPost("/app/users/verify_signin_token/", map["token" := Text(token)])
    ensures r.data.Keys == {"token"}
  {
    var data: Data := map["token" := Text(token)];
    r := FormPost("/app/users/verify_signin_token/", data);
  }

  /** `update_password`: sets a user's password (always sent) for the truthy identifiers. */
  method UpdatePassword(password: string,
                        username: Option<string> := None,
                        userId: Option<string> := None)
    returns (r: Request)
    ensures r == FormPost("/app/users/update_app_user_password/", Fill(map["password" := Text(password)], IdentityFields(username, userId)))
  {
    ghost var pending := IdentityFields(username, userId);
    var data: Data := map["password" := Text(password)];
    data, pending := SetIfTruthy(data, pending, "username", username);
    data, pending := SetIfTruthy(data, pending, "user_id", userId);
    r := FormPost("/app/users/update_app_user_password/", data);
  }

  /** `reset_password`: self-service reset with a verification code, its id and the new password. */
  method ResetPassword(code: string,
                       codeId: string,
                       password: string)
    returns (r: Request)
    ensures r == FormPost("/app/users/reset_password_for_app_user/", map["code" := Text(code), "code_id" := Text(codeId), "password" := Text(password)])
    ensures r.data.Keys == {"code", "code_id", "password"}
  {
    var data: Data := map["code" := Text(code), "code_id" := Text(codeId), "password" := Text(password)];
    r := FormPost("/app/users/reset_password_for_app_user/", data);
  }

  /** `update_status`: sets a user's status (always sent) for the truthy identifiers. */
  method UpdateStatus(status: string,
                      username: Option<string> := None,
                      userId: Option<string> := None)
    returns (r: Request)
    ensures r == FormPost("/app/users/update_app_user_status/", Fill(map["status" := Text(status)], IdentityFields(username, userId)))
  {
    ghost var pending := IdentityFields(username, userId);
    var data: Data := map["status" := Text(status)];
    data, pending := SetIfTruthy(data, pending, "username", username);
    data, pending := SetIfTruthy(data, pending, "user_id", userId);
    r := FormPost("/app/users/update_app_user_status/", data);
  }

  /** `update_type`: sets a user's type (always sent) for the truthy identifiers; the `user_type` argument travels under key `type`. */
  method UpdateType(userType: string,
                    username: Option<string> := None,
                    userId: Option<string> := None)
    returns (r: Request)
    ensures r == FormPost("/app/users/update_app_user_type/", Fill(map["type" := Text(userType)], IdentityFields(username, userId)))
  {
    ghost var pending := IdentityFields(username, userId);
    var data: Data := map["type" := Text(userType)];
    data, pending := SetIfTruthy(data, pending, "username", username);
    data, pending := SetIfTruthy(data, pending, "user_id", userId);
    r := FormPost("/app/users/update_app_user_type/", data);
  }

  /** `reactivate`: reactivates the user named by the truthy identifiers. */
  method Reactivate(username: Option<string> := None,
                    userId: Option<string> := None)
    returns (r: Request)
    ensures r == FormPost("/app/users/reactivate_app_user/", Fill(map[], IdentityFields(username, userId)))
  {
    ghost var pending := IdentityFields(username, userId);
    var data: Data := map[];
    data, pending := SetIfTruthy(data, pending, "username", username);
    data, pending := SetIfTruthy(data, pending, "user_id", userId);
    r := FormPost("/app/users/reactivate_app_user/", data);
  }

  /** `send_verification_code`: e-mails a verification code to the user named by the truthy identifiers. */
  method SendVerificationCode(username: Option<string> := None,
                              userId: Option<string> := None)
    returns (r: Request)
    ensures r == FormPost("/app/users/send_code_via_email_to_app_user/", Fill(map[], IdentityFields(username, userId)))
  {
    ghost var pending := IdentityFields(username, userId);
    var data: Data := map[];
    data, pending := SetIfTruthy(data, pending, "username", username);
    data, pending := SetIfTruthy(data, pending, "user_id", userId);
    r := FormPost("/app/users/send_code_via_email_to_app_user/", data);
  }

  /** `validate_verification_code`: checks an e-mailed code against its id. */
  method ValidateVerificationCode(code: string,
                                  codeId: string)
    returns (r: Request)
    ensures r == FormPost("/app/users/validate_code_via_email_for_app_user/", map["code" := Text(code), "code_id" := Text(codeId)])
    ensures r.data.Keys == {"code", "code_id"}
  {
    var data: Data := map["code" := Text(code), "code_id" := Text(codeId)];
    r := FormPost("/app/users/validate_code_via_email_for_app_user/", data);
  }

  /** `create` with every argument left at its default sends an empty dict. */
  lemma CreateWithDefaultsSendsNothing()
    ensures Fill(map[], CreateFields()) == map[]
  {
    FillAllFalsy(map[], CreateFields());
  }

  /** `get` and `exists` accept a call with no identifier at all: nothing is
      checked locally, and the request goes out with an empty dict. */
  lemma LookupWithoutIdentifiersSendsNothing()
    ensures Fill(map[], LookupFields()) == map[]
  {
    FillAllFalsy(map[], LookupFields());
  }
}
