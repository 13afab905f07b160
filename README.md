# Cloud Natural Language service wrapper — request-parameter resolution

This project models `Google::Cloud::Language::Service`, the object that
sits between the `google-cloud-language` Ruby client and the generated
gRPC stub. Before each remote call the service works out the parameters
it sends:

- **`annotate`** takes three flags (`syntax`, `entities`, `sentiment`).
  When all three are false, which is the default, it requests all three
  analyses. Otherwise it forwards the flags unchanged into
  `AnnotateTextRequest::Features`.
- **`verify_encoding!`** is used by `annotate`, `syntax`, `entities` and
  `sentiment`. It turns the optional encoding argument into a string,
  lower-cases it and looks it up in a six-entry table. Any name the table
  does not know gives UTF-8, so it never raises for any argument whose `String()` is a valid string.
- **`initialize`** fills in a missing host with the service address and a
  missing client config with an empty hash.
- **`insecure?`** recognises the `:this_channel_is_insecure` sentinel.
- **`default_headers`** builds the `google-cloud-resource-prefix` header
  `"projects/<project>"`.

Files:

- `wrappers.dfy` (module `Wrappers`): `Option`, which stands for Ruby's nil-able arguments.
- `ascii.dfy` (module `Ascii`): ASCII lower-casing. This is the part of Ruby's `String#downcase` that the encoding names need.
- `service.dfy` (module `LanguageService`):
  - the `Encoding`, `Features`, `Document`, `Request` and `Credentials` datatypes;
  - the pure functions `VerifyEncoding`, `DefaultToAll` and `ResourcePrefix`;
  - the class `Service`. Its fields are the Ruby object's five configuration fields. Its constructor uses `nameonly` formals with defaults, as Ruby's keyword arguments do.

The encoding argument is `Nil`, `Str(t)` or `Sym(n)`. `Str(t)` stands for any argument whose `String()` is `t`. An Integer enum value such as `2`, for instance, is `Str("2")`, and it selects UTF-8.

The remote calls are not modelled. Each RPC method returns the `Request` it
would hand to the stub: the document, the features where there are any, the
normalised encoding and the call-option headers. The model's specification of
`annotate` is a set-valued reference rule, `DefaultToAll`: an empty request
becomes every feature, and any other request is kept. `Service.Annotate` is
proved against that rule. `FeatureSetRoundTrip` shows that the feature set
fixes the `Features` value.

## Model

| member | source | states |
|---|---|---|
| `LanguageService.Service.constructor` | lib/google/cloud/language/service.rb:32-39 | project, credentials and timeout are stored as given; a nil host becomes the service address and a given host is kept; a nil client config becomes the empty map and a given one is kept |
| `LanguageService.Service.IsInsecure` | lib/google/cloud/language/service.rb:65-67 | true exactly when the credentials are the insecure-channel sentinel rather than real call credentials |
| `LanguageService.Service.DefaultHeaders` | lib/google/cloud/language/service.rb:129-131 | exactly one header, `google-cloud-resource-prefix`, from whose value the service's project is recovered unchanged |
| `LanguageService.ResourcePrefix` | lib/google/cloud/language/service.rb:130 | the header value starts with `projects/` and the rest of it is the project |
| `LanguageService.ResourcePrefixInjective` | lib/google/cloud/language/service.rb:130 | two projects with the same resource prefix are the same project |
| `LanguageService.Service.Annotate` | lib/google/cloud/language/service.rb:71-86 | the request is an annotate-text request for the given document; its features are the requested ones, or all three when none was requested; flags with at least one true reach `Features` as given; the encoding is the normalised one; the headers are the default headers |
| `LanguageService.DefaultToAll` | lib/google/cloud/language/service.rb:73-80 | an empty request resolves to all three features; a non-empty request is kept as it is; so the resolved set is never empty and contains every requested feature |
| `LanguageService.DefaultToAllIdempotent` | lib/google/cloud/language/service.rb:73-77 | resolving an already resolved feature set changes nothing |
| `LanguageService.FeatureSetRoundTrip` | lib/google/cloud/language/service.rb:78-80 | the three flags of `Features` and the set of features they switch on determine each other |
| `LanguageService.Service.Syntax` | lib/google/cloud/language/service.rb:88-94 | an analyze-syntax request for the document that asks for syntax only, with the normalised encoding and the default headers |
| `LanguageService.Service.Entities` | lib/google/cloud/language/service.rb:96-102 | an analyze-entities request for the document that asks for entities only, with the normalised encoding and the default headers |
| `LanguageService.Service.Sentiment` | lib/google/cloud/language/service.rb:104-110 | an analyze-sentiment request for the document that asks for document sentiment only, with the normalised encoding and the default headers |
| `LanguageService.SymbolAndStringAgree` | lib/google/cloud/language/service.rb:126 | a symbol and a string with the same name select the same encoding |
| `LanguageService.VerifyEncoding` | lib/google/cloud/language/service.rb:118-127 | total, with no precondition: UTF-16 exactly when the lower-cased name is `utf16` or `utf-16`; UTF-32 exactly when it is `utf32` or `utf-32`; UTF-8 otherwise, including for nil |
| `LanguageService.EncodingTableEntries` | lib/google/cloud/language/service.rb:120-125 | each of the six table names selects the encoding it spells |
| `LanguageService.TableKeySelectsItsEncoding` | lib/google/cloud/language/service.rb:120-126 | a table key passed as written selects its own table entry |
| `LanguageService.VerifyEncodingIgnoresCase` | lib/google/cloud/language/service.rb:126 | two names that are equal ignoring ASCII case select the same encoding |
| `LanguageService.AnyCasingOfKey` | lib/google/cloud/language/service.rb:120-126 | any casing of a table key, as a string or a symbol, selects that key's encoding |
| `LanguageService.UnknownEncodingIsUtf8` | lib/google/cloud/language/service.rb:126 | a name whose lower-case form is not in the table selects UTF-8 |
| `LanguageService.EncodingNameRoundTrip` | lib/google/cloud/language/service.rb:120-126 | the symbol of each encoding (`:UTF8`, `:UTF16`, `:UTF32`), or its name as a string, selects that encoding |
| `LanguageService.VerifyEncodingIdempotent` | lib/google/cloud/language/service.rb:118-127 | passing the symbol of a normalised encoding back in returns the same encoding |
| `LanguageService.BareAnnotate` | test/google/cloud/language/document/full_html_annotation_test.rb:20-31 | a bare `annotate` sends an annotate-text request with all three features on, UTF-8 and the default headers |
| `Ascii.ToLower` | lib/google/cloud/language/service.rb:126 | the lower-cased string has the same length, and each character is the ASCII lower case of the one at the same position |
| `Ascii.EqualIgnoringCaseIff` | lib/google/cloud/language/service.rb:126 | two strings lower-case to the same string if and only if they are equal ignoring ASCII case |

## Left out

- `channel`, `chan_creds`, the memoised `service` client and `mocked_service` (lib/google/cloud/language/service.rb:41-63): they set up gRPC channels and credentials in a foreign library, their behaviour belongs to the gRPC library.
- `default_options` (lib/google/cloud/language/service.rb:133-135): it only wraps the default headers in `Google::Gax::CallOptions`. The model puts the headers straight into each `Request`.
- `execute` (lib/google/cloud/language/service.rb:137-142) and the remote calls `annotate_text`, `analyze_syntax`, `analyze_entities` and `analyze_sentiment`: these are the network call and the translation of a foreign exception. Each RPC method returns its request instead.
- `inspect` (lib/google/cloud/language/service.rb:112-114): a debugging string made of the runtime class name and the project. Nothing else uses it.
- `Ascii.ToLower`: Ruby's `String#downcase` folds Unicode case; the model folds ASCII letters only. For the lookup this makes no difference: the table keys use only `u`, `t`, `f`, `-` and digits, and no non-ASCII character lower-cases to any of them, so `VerifyEncoding` gives Ruby's result on every valid string.
- `LanguageService.Service.Annotate`: the flags are plain booleans. In Ruby the defaulting triggers only on the literal `false`, so passing `nil` for every flag would not select all features. That case is not modelled.
- `LanguageService.Service.constructor`: `client_config` is a map from strings to strings; the Ruby hash may hold nested values. `timeout` is an optional whole number of seconds. Ruby's `host || SERVICE_ADDRESS` and `client_config || {}` would also replace a literal `false`; neither `false` case is modelled, only nil.
- `LanguageService.ServiceAddress` is an abstract constant. Its value is defined by the generated `V1::LanguageServiceClient`, which is not part of this model.
- `lib/google-cloud-language.rb`: `Google::Cloud.language` only forwards `project`, `keyfile`, `scope`, `timeout` and `client_config` to `Google::Cloud::Language.new` (lines 104-110); the instance method `language` (lines 64-68) passes its own project and keyfile and falls back to its own timeout when none is given.
- The annotation object model: `Annotation`, entity grouping by type, `Sentence`, `Token`, part-of-speech decoding and sentiment. Its source is not part of this model. The tests only show it through mocked or live responses, so the model does not rebuild it from their expectations.
- The `Document` passed to each RPC is forwarded unchanged; how the client builds it from text, format and language is not part of this model.
