/**
 * The request-parameter resolution of the Cloud Natural Language gRPC
 * service wrapper (`Google::Cloud::Language::Service`): constructor
 * defaults, the credentials sentinel, the resource-prefix header, the
 * feature-flag defaulting of `annotate` and the encoding normalisation
 * shared by all four RPCs. The remote calls themselves are not modelled;
 * each RPC method returns the request it would send.
 */
module LanguageService {
  import opened Wrappers
  import opened Ascii

  // ---------------------------------------------------------------- encoding

  /** The values of `V1::EncodingType` that the service can select. */
  datatype Encoding = UTF8 | UTF16 | UTF32

  /** What a caller may pass as `encoding:`: nothing, a string or a symbol. */
  datatype EncodingArg = Nil | Str(text: string) | Sym(name: string)

  /** Ruby's `String(x)`: `""` for nil, the text of a string, the name of a symbol. */
  function RubyString(a: EncodingArg): (r: string) {
    match a
    case Nil => ""
    case Str(t) => t
    case Sym(n) => n
  }

  /** The name of the symbol that stands for an encoding (`:UTF16` is named "UTF16"). */
  function EncodingName(e: Encoding): (n: string) {
    match e
    case UTF8 => "UTF8"
    case UTF16 => "UTF16"
    case UTF32 => "UTF32"
  }

  /** The lookup table of `verify_encoding!`, keyed by lower-case names. */
  const EncodingTable: map<string, Encoding> :=
    map["utf8" := UTF8, "utf-8" := UTF8,
        "utf16" := UTF16, "utf-16" := UTF16,
        "utf32" := UTF32, "utf-32" := UTF32]

  /**
   * `verify_encoding!`: the argument is turned into a string, lower-cased and
   * looked up; a name the table does not know selects UTF-8. It never fails.
   */
  function VerifyEncoding(encoding: EncodingArg): (r: Encoding)
    ensures r == UTF16 <==> ToLower(RubyString(encoding)) in {"utf16", "utf-16"}
    ensures r == UTF32 <==> ToLower(RubyString(encoding)) in {"utf32", "utf-32"}
    ensures encoding == Nil ==> r == UTF8
  {
    var key := ToLower(RubyString(encoding));
    if key in EncodingTable then EncodingTable[key] else UTF8
  }

  /** The six names of the table select the encodings they spell. */
  lemma EncodingTableEntries()
    ensures VerifyEncoding(Str("utf8")) == UTF8 && VerifyEncoding(Str("utf-8")) == UTF8
    ensures VerifyEncoding(Str("utf16")) == UTF16 && VerifyEncoding(Str("utf-16")) == UTF16
    ensures VerifyEncoding(Str("utf32")) == UTF32 && VerifyEncoding(Str("utf-32")) == UTF32
  {
    TableKeySelectsItsEncoding("utf8");
    TableKeySelectsItsEncoding("utf-8");
    TableKeySelectsItsEncoding("utf16");
    TableKeySelectsItsEncoding("utf-16");
    TableKeySelectsItsEncoding("utf32");
    TableKeySelectsItsEncoding("utf-32");
  }

  /** A key of the table, passed as it is written there, selects its own entry. */
  lemma TableKeySelectsItsEncoding(key: string)
    requires key in EncodingTable
    ensures VerifyEncoding(Str(key)) == EncodingTable[key]
  {
    assert NoUpper(key);
    ToLowerKeepsLower(key);
  }

  /** Only the lower-cased argument matters: names equal ignoring case select the same encoding. */
  lemma VerifyEncodingIgnoresCase(a: EncodingArg, b: EncodingArg)
    requires EqualIgnoringCase(RubyString(a), RubyString(b))
    ensures VerifyEncoding(a) == VerifyEncoding(b)
  {
    EqualIgnoringCaseIff(RubyString(a), RubyString(b));
  }

  /** Any casing of a table key, given as a string or a symbol, selects that key's encoding. */
  lemma AnyCasingOfKey(a: EncodingArg, key: string)
    requires key in EncodingTable
    requires EqualIgnoringCase(RubyString(a), key)
    ensures VerifyEncoding(a) == EncodingTable[key]
  {
    EqualIgnoringCaseIff(RubyString(a), key);
    TableKeySelectsItsEncoding(key);
  }

  /** A symbol and a string with the same name select the same encoding. */
  lemma SymbolAndStringAgree(name: string)
    ensures VerifyEncoding(Sym(name)) == VerifyEncoding(Str(name))
  {
  }

  /** Nil, the empty string and every name outside the table fall back to UTF-8. */
  lemma UnknownEncodingIsUtf8(a: EncodingArg)
    requires ToLower(RubyString(a)) !in EncodingTable
    ensures VerifyEncoding(a) == UTF8
  {
  }

  /** The symbol of an encoding, passed back in, selects that same encoding. */
  lemma EncodingNameRoundTrip(e: Encoding)
    ensures VerifyEncoding(Sym(EncodingName(e))) == e
    ensures VerifyEncoding(Str(EncodingName(e))) == e
  {
    match e
    case UTF8 =>
      assert EqualIgnoringCase("UTF8", "utf8");
      AnyCasingOfKey(Sym("UTF8"), "utf8");
      AnyCasingOfKey(Str("UTF8"), "utf8");
    case UTF16 =>
      assert EqualIgnoringCase("UTF16", "utf16");
      AnyCasingOfKey(Sym("UTF16"), "utf16");
      AnyCasingOfKey(Str("UTF16"), "utf16");
    case UTF32 =>
      assert EqualIgnoringCase("UTF32", "utf32");
      AnyCasingOfKey(Sym("UTF32"), "utf32");
      AnyCasingOfKey(Str("UTF32"), "utf32");
  }

  /** Feeding the result of `verify_encoding!` back into it changes nothing. */
  lemma VerifyEncodingIdempotent(a: EncodingArg)
    ensures VerifyEncoding(Sym(EncodingName(VerifyEncoding(a)))) == VerifyEncoding(a)
  {
    EncodingNameRoundTrip(VerifyEncoding(a));
  }

  // ---------------------------------------------------------------- features

  /** One analysis an `AnnotateTextRequest` can ask for. */
  datatype Feature = ExtractSyntax | ExtractEntities | ExtractDocumentSentiment

  const AllFeatures: set<Feature> := {ExtractSyntax, ExtractEntities, ExtractDocumentSentiment}

  /** `V1::AnnotateTextRequest::Features`. */
  datatype Features = Features(extractSyntax: bool, extractEntities: bool, extractDocumentSentiment: bool)

  /** The analyses a `Features` value switches on. */
  function FeatureSet(f: Features): (s: set<Feature>) {
    (if f.extractSyntax then {ExtractSyntax} else {})
    + (if f.extractEntities then {ExtractEntities} else {})
    + (if f.extractDocumentSentiment then {ExtractDocumentSentiment} else {})
  }

  /** The `Features` value that switches on exactly the analyses in `s`. */
  function FeaturesOf(s: set<Feature>): (f: Features) {
    Features(ExtractSyntax in s, ExtractEntities in s, ExtractDocumentSentiment in s)
  }

  /** `FeatureSet` and `FeaturesOf` are inverse to each other. */
  lemma FeatureSetRoundTrip(f: Features, s: set<Feature>)
    ensures FeaturesOf(FeatureSet(f)) == f
    ensures FeatureSet(FeaturesOf(s)) == s
  {
    var t := FeatureSet(FeaturesOf(s));
    forall x ensures x in t <==> x in s {
      match x
      case ExtractSyntax =>
      case ExtractEntities =>
      case ExtractDocumentSentiment =>
    }
  }

  /** The design rule behind `annotate`: asking for nothing means asking for everything. */
  function DefaultToAll(requested: set<Feature>): (r: set<Feature>)
    ensures r != {}
    ensures requested <= r
    ensures requested == {} ==> r == AllFeatures
    ensures requested != {} ==> r == requested
  {
    if requested == {} then AllFeatures else requested
  }

  /** Resolving twice is resolving once. */
  lemma DefaultToAllIdempotent(requested: set<Feature>)
    ensures DefaultToAll(DefaultToAll(requested)) == DefaultToAll(requested)
  {
  }

  // ---------------------------------------------------------------- requests

  datatype DocumentType = PlainText | Html

  /** The `V1::Document` a caller hands in; it is forwarded untouched. */
  datatype Document = Document(content: string, kind: DocumentType, language: Option<string>)

  /**
   * The parameters of the four RPCs the service issues. `headers` are the
   * keyword arguments of the call options (`default_options`).
   */
  datatype Request =
    | AnnotateText(document: Document, features: Features, encoding: Encoding, headers: map<string, string>)
    | AnalyzeSyntax(document: Document, encoding: Encoding, headers: map<string, string>)
    | AnalyzeEntities(document: Document, encoding: Encoding, headers: map<string, string>)
    | AnalyzeSentiment(document: Document, encoding: Encoding, headers: map<string, string>)

  /** The analyses a request asks the service to run. */
  function Extracts(r: Request): (s: set<Feature>) {
    match r
    case AnnotateText(_, f, _, _) => FeatureSet(f)
    case AnalyzeSyntax(_, _, _) => {ExtractSyntax}
    case AnalyzeEntities(_, _, _) => {ExtractEntities}
    case AnalyzeSentiment(_, _, _) => {ExtractDocumentSentiment}
  }

  // ------------------------------------------------------------ the service

  /** `V1::LanguageServiceClient::SERVICE_ADDRESS`; its value belongs to the generated client. */
  const ServiceAddress: string

  const ResourcePrefixHeader: string := "google-cloud-resource-prefix"
  const ProjectsPrefix: string := "projects/"

  /** Recovers the project from a resource-prefix header value. */
  function ProjectOfResourcePrefix(p: string): (project: Option<string>) {
    if |ProjectsPrefix| <= |p| && p[..|ProjectsPrefix|] == ProjectsPrefix
    then Some(p[|ProjectsPrefix|..])
    else None
  }

  /** The resource-prefix header value `"projects/#{project}"`. */
  function ResourcePrefix(project: string): (p: string)
    ensures ProjectOfResourcePrefix(p) == Some(project)
  {
    var p := ProjectsPrefix + project;
    assert p[..|ProjectsPrefix|] == ProjectsPrefix;
    assert p[|ProjectsPrefix|..] == project;
    p
  }

  /** Different projects never share a resource prefix. */
  lemma ResourcePrefixInjective(a: string, b: string)
    requires ResourcePrefix(a) == ResourcePrefix(b)
    ensures a == b
  {
  }

  /** The credentials the service is built with; the first one is the `:this_channel_is_insecure` symbol. */
  datatype Credentials = ThisChannelIsInsecure | CallCredentials(client: string)

  class Service {
    var project: string
    var credentials: Credentials
    var host: string
    var clientConfig: map<string, string>
    var timeout: Option<nat>

    /** `initialize`: a missing host is the service address, a missing client config is empty. */
    constructor (project: string, credentials: Credentials,
                 nameonly host: Option<string> := None,
                 nameonly clientConfig: Option<map<string, string>> := None,
                 nameonly timeout: Option<nat> := None)
      ensures this.project == project && this.credentials == credentials && this.timeout == timeout
      ensures host.Some? ==> this.host == host.value
      ensures host.None? ==> this.host == ServiceAddress
      ensures clientConfig.Some? ==> this.clientConfig == clientConfig.value
      ensures clientConfig.None? ==> this.clientConfig == map[]
    {
      this.project := project;
      this.credentials := credentials;
      this.host := host.GetOr(ServiceAddress);
      this.clientConfig := clientConfig.GetOr(map[]);
      this.timeout := timeout;
    }

    /** `insecure?`: the credentials are the insecure-channel sentinel and nothing else. */
    predicate IsInsecure()
      reads this
      ensures IsInsecure() <==> !credentials.CallCredentials?
    {
      credentials == ThisChannelIsInsecure
    }

    /** `default_headers`: one header, from which the project can be read back. */
    function DefaultHeaders(): (h: map<string, string>)
      reads this
      ensures h.Keys == {ResourcePrefixHeader}
      ensures ProjectOfResourcePrefix(h[ResourcePrefixHeader]) == Some(project)
    {
      map[ResourcePrefixHeader := ResourcePrefix(project)]
    }

    /**
     * `annotate`: when no flag is set all three analyses are requested,
     * otherwise the flags are forwarded as given.
     */
    method Annotate(doc: Document,
                    nameonly syntax: bool := false,
                    nameonly entities: bool := false,
                    nameonly sentiment: bool := false,
                    nameonly encoding: EncodingArg := Nil)
      returns (req: Request)
      ensures req.AnnotateText? && req.document == doc
      ensures Extracts(req) == DefaultToAll(FeatureSet(Features(syntax, entities, sentiment)))
      ensures (syntax || entities || sentiment) ==> req.features == Features(syntax, entities, sentiment)
      ensures !(syntax || entities || sentiment) ==> req.features == Features(true, true, true)
      ensures req.encoding == VerifyEncoding(encoding)
      ensures req.headers == DefaultHeaders()
    {
      var extractSyntax, extractEntities, extractSentiment := syntax, entities, sentiment;
      if !extractSyntax && !extractEntities && !extractSentiment {
        extractSyntax, extractEntities, extractSentiment := true, true, true;
      }
      var features := Features(extractSyntax, extractEntities, extractSentiment);
      var resolved := VerifyEncoding(encoding);
      req := AnnotateText(doc, features, resolved, DefaultHeaders());
    }

    /** `syntax`: an `analyze_syntax` call with the normalised encoding. */
    method Syntax(doc: Document, nameonly encoding: EncodingArg := Nil) returns (req: Request)
      ensures req.AnalyzeSyntax? && req.document == doc
      ensures Extracts(req) == {ExtractSyntax}
      ensures req.encoding == VerifyEncoding(encoding)
      ensures req.headers == DefaultHeaders()
    {
      var resolved := VerifyEncoding(encoding);
      req := AnalyzeSyntax(doc, resolved, DefaultHeaders());
    }

    /** `entities`: an `analyze_entities` call with the normalised encoding. */
    method Entities(doc: Document, nameonly encoding: EncodingArg := Nil) returns (req: Request)
      ensures req.AnalyzeEntities? && req.document == doc
      ensures Extracts(req) == {ExtractEntities}
      ensures req.encoding == VerifyEncoding(encoding)
      ensures req.headers == DefaultHeaders()
    {
      var resolved := VerifyEncoding(encoding);
      req := AnalyzeEntities(doc, resolved, DefaultHeaders());
    }

    /** `sentiment`: an `analyze_sentiment` call with the normalised encoding. */
    method Sentiment(doc: Document, nameonly encoding: EncodingArg := Nil) returns (req: Request)
      ensures req.AnalyzeSentiment? && req.document == doc
      ensures Extracts(req) == {ExtractDocumentSentiment}
      ensures req.encoding == VerifyEncoding(encoding)
      ensures req.headers == DefaultHeaders()
    {
      var resolved := VerifyEncoding(encoding);
      req := AnalyzeSentiment(doc, resolved, DefaultHeaders());
    }
  }

  /** A bare `annotate` asks for all three analyses with UTF-8 offsets. */
  method BareAnnotate(service: Service, doc: Document) returns (req: Request)
    ensures req == AnnotateText(doc, Features(true, true, true), UTF8, service.DefaultHeaders())
  {
    req := service.Annotate(doc);
  }
}
