/** `EmailResource` (eaglebirth/resources.py): e-mail notifications. */
module EmailResource {

  import opened Common
  import opened Payload

  /** The optional arguments `send` tests, in source order. */
  function SendFields(replyTo: Option<string> := None,
                      header: Option<string> := None,
                      salutation: Option<string> := None)
    : seq<Field>
  {
    [Field("reply_to", replyTo),
     Field("header", header),
     Field("salutation", salutation)]
  }

  /** SendFields tests each key once. */
  lemma SendFieldsDistinct(replyTo: Option<string>,
                           header: Option<string>,
                           salutation: Option<string>)
    ensures DistinctKeys(SendFields(replyTo, header, salutation))
  {
  }

  /** Over any seed, `send`'s statements add exactly the truthy optional
      arguments, each as given, and keep the seed's fields. `SendSends` states
      it on `Send`'s own seed. */
  lemma SendCarries(seed: Data,
                    replyTo: Option<string>,
                    header: Option<string>,
                    salutation: Option<string>)
    ensures var fs := SendFields(replyTo, header, salutation); Carries(Fill(seed, fs), seed, fs)
  {
    SendFieldsDistinct(replyTo, header, salutation);
    FillCarries(seed, SendFields(replyTo, header, salutation));
  }

  /** The dict `Send` builds, on its own seed: `email`, `subject` and
      `message` as given, and the optional arguments each iff truthy, as
      given; nothing else. */
  lemma SendSends(email: string, subject: string, message: string,
                  replyTo: Option<string>, header: Option<string>, salutation: Option<string>)
    ensures var d := Fill(map["email" := Text(email), "subject" := Text(subject), "message" := Text(message)],
                          SendFields(replyTo, header, salutation));
            && d.Keys == {"email", "subject", "message"} + OptKey("reply_to", replyTo)
                         + OptKey("header", header) + OptKey("salutation", salutation)
            && d["email"] == Text(email) && d["subject"] == Text(subject) && d["message"] == Text(message)
            && SentAs(d, "reply_to", replyTo) && SentAs(d, "header", header) && SentAs(d, "salutation", salutation)
  {
    var seed: Data := map["email" := Text(email), "subject" := Text(subject), "message" := Text(message)];
    FillThree(seed, Field("reply_to", replyTo), Field("header", header), Field("salutation", salutation));
  }

  /** `send`: one e-mail; recipient, subject and body are always sent. */
  method Send(email: string,
              subject: string,
              message: string,
              replyTo: Option<string> := None,
              header: Option<string> := None,
              salutation: Option<string> := None)
    returns (r: Request)
    ensures r == FormPost("/app/messaging/email/", Fill(map["email" := Text(email), "subject" := Text(subject), "message" := Text(message)], SendFields(replyTo, header, salutation)))
  {
    ghost var pending := SendFields(replyTo, header, salutation);
    var data: Data := map["email" := Text(email), "subject" := Text(subject), "message" := Text(message)];
    data, pending := SetIfTruthy(data, pending, "reply_to", replyTo);
    data, pending := SetIfTruthy(data, pending, "header", header);
    data, pending := SetIfTruthy(data, pending, "salutation", salutation);
    r := FormPost("/app/messaging/email/", data);
  }
}

/** `SMSResource` (eaglebirth/resources.py): SMS notifications and prices. */
module SMSResource {

  import opened Common
  import opened Payload

  /** The optional arguments `send` tests, in source order. */
  function SendFields(sendingMethod: Option<string> := None,
                      provider: Option<string> := None)
    : seq<Field>
  {
    [Field("sending_method", sendingMethod),
     Field("provider", provider)]
  }

  /** SendFields tests each key once. */
  lemma SendFieldsDistinct(sendingMethod: Option<string>,
                           provider: Option<string>)
    ensures DistinctKeys(SendFields(sendingMethod, provider))
  {
  }

  /** Over any seed, `send`'s statements add exactly the truthy optional
      arguments, each as given, and keep the seed's fields. `SendSends` states
      it on `Send`'s own seed. */
  lemma SendCarries(seed: Data,
                    sendingMethod: Option<string>,
                    provider: Option<string>)
    ensures var fs := SendFields(sendingMethod, provider); Carries(Fill(seed, fs), seed, fs)
  {
    SendFieldsDistinct(sendingMethod, provider);
    FillCarries(seed, SendFields(sendingMethod, provider));
  }

  /** The dict `Send` builds, on its own seed: `phone_number` and `message`
      as given, and the optional arguments each iff truthy, as given;
      nothing else. */
  lemma SendSends(phoneNumber: string, message: string,
                  sendingMethod: Option<string>, provider: Option<string>)
    ensures var d := Fill(map["phone_number" := Text(phoneNumber), "message" := Text(message)],
                          SendFields(sendingMethod, provider));
            && d.Keys == {"phone_number", "message"} + OptKey("sending_method", sendingMethod) + OptKey("provider", provider)
            && d["phone_number"] == Text(phoneNumber) && d["message"] == Text(message)
            && SentAs(d, "sending_method", sendingMethod) && SentAs(d, "provider", provider)
  {
    var seed: Data := map["phone_number" := Text(phoneNumber), "message" := Text(message)];
    FillTwo(seed, Field("sending_method", sendingMethod), Field("provider", provider));
  }

  /** `send`: one SMS; number and text are always sent. */
  method Send(phoneNumber: string,
              message: string,
              sendingMethod: Option<string> := None,
              provider: Option<string> := None)
    returns (r: Request)
    ensures r == FormPost("/app/messaging/sms/", Fill(map["phone_number" := Text(phoneNumber), "message" := Text(message)], SendFields(sendingMethod, provider)))
  {
    ghost var pending := SendFields(sendingMethod, provider);
    var data: Data := map["phone_number" := Text(phoneNumber), "message" := Text(message)];
    data, pending := SetIfTruthy(data, pending, "sending_method", sendingMethod);
    data, pending := SetIfTruthy(data, pending, "provider", provider);
    r := FormPost("/app/messaging/sms/", data);
  }

  /** The optional argument `get_prices` tests. */
  function GetPricesFields(phoneNumber: Option<string> := None)
    : seq<Field>
  {
    [Field("phone_number", phoneNumber)]
  }

  /** GetPricesFields tests each key once. */
  lemma GetPricesFieldsDistinct(phoneNumber: Option<string>)
    ensures DistinctKeys(GetPricesFields(phoneNumber))
  {
  }

  /** `get_prices` sends `phone_number` exactly when it is truthy. Stated for
      any seed; `GetPrices` starts from `map[]`. */
  lemma GetPricesCarries(seed: Data,
                         phoneNumber: Option<string>)
    ensures var fs := GetPricesFields(phoneNumber); Carries(Fill(seed, fs), seed, fs)
  {
    GetPricesFieldsDistinct(phoneNumber);
    FillCarries(seed, GetPricesFields(phoneNumber));
  }

  /** `get_prices`: SMS pricing, for one number when it is truthy. */
  method GetPrices(phoneNumber: Option<string> := None)
    returns (r: Request)
    ensures r == FormPost("/app/messaging/sms/get_prices_for_sms/", Fill(map[], GetPricesFields(phoneNumber)))
  {
    ghost var pending := GetPricesFields(phoneNumber);
    var data: Data := map[];
    data, pending := SetIfTruthy(data, pending, "phone_number", phoneNumber);
    r := FormPost("/app/messaging/sms/get_prices_for_sms/", data);
  }

  /** `get_prices` without a number sends an empty dict. */
  lemma GetPricesWithoutNumberSendsNothing()
    ensures Fill(map[], GetPricesFields()) == map[]
  {
    FillAllFalsy(map[], GetPricesFields());
  }
}

/** `WhatsAppResource` (eaglebirth/resources.py): WhatsApp notifications. */
module WhatsAppResource {

  import opened Common
  import opened Payload

  /** `send`: one WhatsApp message; number, text and template are always sent, the template defaulting to `normal_message`. */
  method Send(phoneNumber: string,
              message: string,
              template: string := "normal_message")
    returns (r: Request)
    ensures r == FormPost("/app/messaging/whatsapp/", map["phone_number" := Text(phoneNumber), "message" := Text(message), "template" := Text(template)])
    ensures r.data.Keys == {"phone_number", "message", "template"}
  {
    var data: Data := map["phone_number" := Text(phoneNumber), "message" := Text(message), "template" := Text(template)];
    r := FormPost("/app/messaging/whatsapp/", data);
  }
}

/** `OTPResource` (eaglebirth/resources.py): one-time codes. */
module OTPResource {

  import opened Common
  import opened Payload

  /** The optional arguments `send` tests, in source order. */
  function SendFields(email: Option<string> := None,
                      phoneNumber: Option<string> := None,
                      provider: Option<string> := None)
    : seq<Field>
  {
    [Field("email", email),
     Field("phone_number", phoneNumber),
     Field("provider", provider)]
  }

  /** SendFields tests each key once. */
  lemma SendFieldsDistinct(email: Option<string>,
                           phoneNumber: Option<string>,
                           provider: Option<string>)
    ensures DistinctKeys(SendFields(email, phoneNumber, provider))
  {
  }

  /** Over any seed, `send`'s statements add exactly the truthy addresses and
      provider, each as given, and keep the seed's fields. `SendSends` states
      it on `Send`'s own seed. */
  lemma SendCarries(seed: Data,
                    email: Option<string>,
                    phoneNumber: Option<string>,
                    provider: Option<string>)
    ensures var fs := SendFields(email, phoneNumber, provider); Carries(Fill(seed, fs), seed, fs)
  {
    SendFieldsDistinct(email, phoneNumber, provider);
    FillCarries(seed, SendFields(email, phoneNumber, provider));
  }

  /** The dict `Send` builds, on its own seed: `validation_type` and the
      three numeric settings as given, and the addresses and provider each
      iff truthy, as given; nothing else. */
  lemma SendSends(validationType: string, email: Option<string>, phoneNumber: Option<string>,
                  provider: Option<string>, codeLength: int, timeout: int, trials: int)
    ensures var d := Fill(map["validation_type" := Text(validationType), "code_length" := Number(codeLength),
                              "timeout" := Number(timeout), "trials" := Number(trials)],
                          SendFields(email, phoneNumber, provider));
            && d.Keys == {"validation_type", "code_length", "timeout", "trials"}
                         + OptKey("email", email) + OptKey("phone_number", phoneNumber) + OptKey("provider", provider)
            && d["validation_type"] == Text(validationType) && d["code_length"] == Number(codeLength)
            && d["timeout"] == Number(timeout) && d["trials"] == Number(trials)
            && SentAs(d, "email", email) && SentAs(d, "phone_number", phoneNumber) && SentAs(d, "provider", provider)
  {
    var seed: Data := map["validation_type" := Text(validationType), "code_length" := Number(codeLength),
                          "timeout" := Number(timeout), "trials" := Number(trials)];
    FillThree(seed, Field("email", email), Field("phone_number", phoneNumber), Field("provider", provider));
  }

  /** `send`: issues a code; the validation type and the three numeric settings (defaults 6, 180 and 3) are always sent. */
  method Send(validationType: string,
              email: Option<string> := None,
              phoneNumber: Option<string> := None,
              provider: Option<string> := None,
              codeLength: int := 6,
              timeout: int := 180,
              trials: int := 3)
    returns (r: Request)
    ensures r == FormPost("/app/code_validation/", Fill(map["validation_type" := Text(validationType), "code_length" := Number(codeLength), "timeout" := Number(timeout), "trials" := Number(trials)], SendFields(email, phoneNumber, provider)))
  {
    ghost var pending := SendFields(email, phoneNumber, provider);
    var data: Data := map["validation_type" := Text(validationType), "code_length" := Number(codeLength), "timeout" := Number(timeout), "trials" := Number(trials)];
    data, pending := SetIfTruthy(data, pending, "email", email);
    data, pending := SetIfTruthy(data, pending, "phone_number", phoneNumber);
    data, pending := SetIfTruthy(data, pending, "provider", provider);
    r := FormPost("/app/code_validation/", data);
  }

  /** `validate`: checks a code against the `code_id` `send` returned. */
  method Validate(codeId: string,
                  code: string)
    returns (r: Request)
    ensures r == FormPost("/app/code_validation/validate_code_sent/", map["code_id" := Text(codeId), "code" := Text(code)])
    ensures r.data.Keys == {"code_id", "code"}
  {
    var data: Data := map["code_id" := Text(codeId), "code" := Text(code)];
    r := FormPost("/app/code_validation/validate_code_sent/", data);
  }

  /** `check_validated`: asks whether the code with this id was validated. */
  method CheckValidated(codeId: string)
    returns (r: Request)
    ensures r == FormPost("/app/code_validation/check_validated_code/", map["code_id" := Text(codeId)])
    ensures r.data.Keys == {"code_id"}
  {
    var data: Data := map["code_id" := Text(codeId)];
    r := FormPost("/app/code_validation/check_validated_code/", data);
  }
}

/** `QRCodeResource` (eaglebirth/resources.py): QR code generation. */
module QRCodeResource {

  import opened Common
  import opened Payload

  /** The optional settings `generate` tests, in source order; `image_type`
      is a plain string, so it is tested for emptiness only. */
  function GenerateFields(color: Option<string>,
                          backgroundColor: Option<string>,
                          qrType: Option<string>,
                          imageType: string)
    : seq<Field>
  {
    [Field("color", color),
     Field("background_color", backgroundColor),
     Field("qr_type", qrType),
     Field("image_type", Some(imageType))]
  }

  /** `generate` tests each key once. */
  lemma GenerateFieldsDistinct(color: Option<string>,
                               backgroundColor: Option<string>,
                               qrType: Option<string>,
                               imageType: string)
    ensures DistinctKeys(GenerateFields(color, backgroundColor, qrType, imageType))
  {
  }

  /** Where `generate` puts its logo: nowhere when the argument is falsy
      (`if image:`), otherwise where the image selector says. */
  function LogoPlacement(image: Image, imageType: string): (p: Placement)
    ensures !ImageTruthy(image) ==> p == Nowhere
    ensures image.Readable? ==> p == AsFile(image.handle)
    ensures p.AsField? <==> image.Str? && image.s != "" && imageType == "link"
  {
    if ImageTruthy(image) then Place(image, imageType) else Nowhere
  }

  /** `generate`: a QR code for `text`, always sent, with the truthy style
      settings (`image_type` defaults to `object`, so it is sent by
      default) and an optional logo. */
  method Generate(text: string,
                  image: Image := Other,
                  imageType: string := "object",
                  color: Option<string> := None,
                  backgroundColor: Option<string> := None,
                  qrType: Option<string> := None)
    returns (r: Request)
    ensures r.verb == "POST" && r.endpoint == "/app/qr_code_generator/" && r.params == None
    ensures r.data == PlaceField(Fill(map["text" := Text(text)], GenerateFields(color, backgroundColor, qrType, imageType)),
                                 "image", LogoPlacement(image, imageType))
    ensures r.files == FilesArg(PlaceFile(map[], "image", LogoPlacement(image, imageType)))
    ensures r.files.Some? <==> image.Readable?
    ensures r.files.Some? ==> r.files.value == map["image" := image.handle]
  {
    ghost var pending := GenerateFields(color, backgroundColor, qrType, imageType);
    var data: Data := map["text" := Text(text)];
    var files: Files := map[];
    data, pending := SetIfTruthy(data, pending, "color", color);
    data, pending := SetIfTruthy(data, pending, "background_color", backgroundColor);
    data, pending := SetIfTruthy(data, pending, "qr_type", qrType);
    data, pending := SetIfTruthy(data, pending, "image_type", Some(imageType));
    if ImageTruthy(image) {
      data, files := SelectImage(data, files, "image", image, imageType);
    }
    assert image.Readable? ==> "image" in files;
    r := Request("POST", "/app/qr_code_generator/", data, FilesArg(files), None);
  }

  /** The form fields `generate` sends: `text` as given, each truthy setting
      as given, `image_type` exactly when it is non-empty, and `image`
      exactly when the logo is a non-empty string with type `link`. */
  lemma GenerateSends(text: string,
                      image: Image,
                      imageType: string,
                      color: Option<string>,
                      backgroundColor: Option<string>,
                      qrType: Option<string>)
    ensures var fs := GenerateFields(color, backgroundColor, qrType, imageType);
            var data := PlaceField(Fill(map["text" := Text(text)], fs), "image", LogoPlacement(image, imageType));
            && Carries(Fill(map["text" := Text(text)], fs), map["text" := Text(text)], fs)
            && ("image_type" in data <==> imageType != "")
            && ("image" in data <==> image.Str? && image.s != "" && imageType == "link")
  {
    var fs := GenerateFields(color, backgroundColor, qrType, imageType);
    var seed: Data := map["text" := Text(text)];
    GenerateFieldsDistinct(color, backgroundColor, qrType, imageType);
    FillCarries(seed, fs);
    FillKeys(seed, fs);
    assert TruthyKeys(fs) <= {"color", "background_color", "qr_type", "image_type"};
    assert "image_type" in TruthyKeys(fs) <==> imageType != "" by {
      if imageType != "" {
        assert fs[3] in fs;
      }
    }
  }
}

/** `ImageProcessingResource` (eaglebirth/resources.py): face and text
    recognition on uploaded or linked images. */
module ImageProcessingResource {

  import opened Common
  import opened Payload

  /** The request `extract_face_details` and `extract_text` build for one
      image: `image_type` always sent, the image placed by the selector, and
      no file part at all unless the image is readable. */
  function OneImage(endpoint: string, image: Image, imageType: string): Request
  {
    Request("POST", endpoint,
            PlaceField(map["image_type" := Text(imageType)], "image", Place(image, imageType)),
            FilesArg(PlaceFile(map[], "image", Place(image, imageType))),
            None)
  }

  /** The selector's promises for a one-image request: a string with type
      `link` is a form field and not a file part, a readable object is the
      only file part and not a form field, anything else is neither. */
  lemma OneImageSelects(endpoint: string, image: Image, imageType: string)
    ensures var r := OneImage(endpoint, image, imageType);
            && r.data.Keys == {"image_type"} + (if image.Str? && imageType == "link" then {"image"} else {})
            && ("image" in r.data ==> r.data["image"] == Text(image.s))
            && r.data["image_type"] == Text(imageType)
            && (r.files.Some? <==> image.Readable?)
            && (r.files.Some? ==> r.files.value == map["image" := image.handle])
            && !("image" in r.data && r.files.Some?)
  {
  }

  /** The method body both one-image operations share in the source. */
  method SendOneImage(endpoint: string, image: Image, imageType: string) returns (r: Request)
    ensures r == OneImage(endpoint, image, imageType)
    ensures r.files.Some? <==> image.Readable?
    ensures "image" in r.data <==> image.Str? && imageType == "link"
  {
    var data: Data := map["image_type" := Text(imageType)];
    var files: Files := map[];
    data, files := SelectImage(data, files, "image", image, imageType);
    r := Request("POST", endpoint, data, FilesArg(files), None);
  }

  /** `extract_face_details`: age, gender and expressions of the faces in one
      image. */
  method ExtractFaceDetails(image: Image, imageType: string := "object") returns (r: Request)
    ensures r == OneImage("/app/image_processing/get_details_from_an_image/", image, imageType)
  {
    r := SendOneImage("/app/image_processing/get_details_from_an_image/", image, imageType);
  }

  /** `extract_text`: the text found in one image. */
  method ExtractText(image: Image, imageType: string := "object") returns (r: Request)
    ensures r == OneImage("/app/image_processing/get_text_from_image/", image, imageType)
  {
    r := SendOneImage("/app/image_processing/get_text_from_image/", image, imageType);
  }

  /** `compare_faces`: similarity of the faces in two images, each placed by
      its own type flag; both flags are always sent. */
  method CompareFaces(image1: Image,
                      image2: Image,
                      image1Type: string := "object",
                      image2Type: string := "object")
    returns (r: Request)
    ensures r.verb == "POST" && r.endpoint == "/app/image_processing/compare_two_faces_in_two_images/" && r.params == None
    ensures r.data == PlaceField(PlaceField(map["image1_type" := Text(image1Type), "image2_type" := Text(image2Type)],
                                            "image1", Place(image1, image1Type)),
                                 "image2", Place(image2, image2Type))
    ensures r.files == FilesArg(PlaceFile(PlaceFile(map[], "image1", Place(image1, image1Type)),
                                          "image2", Place(image2, image2Type)))
    ensures "image1" in r.data <==> image1.Str? && image1Type == "link"
    ensures "image2" in r.data <==> image2.Str? && image2Type == "link"
    ensures r.files.Some? <==> image1.Readable? || image2.Readable?
    ensures r.files.Some? ==> (("image1" in r.files.value <==> image1.Readable?)
                               && ("image2" in r.files.value <==> image2.Readable?))
  {
    var data: Data := map["image1_type" := Text(image1Type), "image2_type" := Text(image2Type)];
    var files: Files := map[];
    data, files := SelectImage(data, files, "image1", image1, image1Type);
    data, files := SelectImage(data, files, "image2", image2, image2Type);
    r := Request("POST", "/app/image_processing/compare_two_faces_in_two_images/", data, FilesArg(files), None);
  }
}
