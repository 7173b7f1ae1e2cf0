/**
 * The Google Docs integration (google_docs_integration.py): the credential
 * file validators, over an already-decoded JSON value, and the text
 * formatters that build the report's sections as lists of text pieces.
 * Reading the file and decoding JSON are inputs; an exception anywhere in
 * the validators is caught by the file-level validator and reported as a
 * read error.
 */
module DocsIntegration {
  import opened Text

  // ----- Credential validation -----------------------------------------------

  /** A decoded JSON value; numbers, booleans and null are atoms with their truth value. */
  datatype Json = Obj(fields: map<string, Json>) | Arr(items: seq<Json>) | Str(text: string) | Atom(truthy: bool)

  /** Python truthiness of a decoded value. */
  predicate Truthy(j: Json) {
    match j
    case Obj(fields) => fields != map[]
    case Arr(items) => items != []
    case Str(text) => text != ""
    case Atom(truthy) => truthy
  }

  /**
   * Python `key in j`: a key of an object, an element of a list, a substring
   * of a string; `None` when the test raises, as it does on an atom.
   */
  function Member(key: string, j: Json): (r: Option<bool>)
    ensures j.Obj? ==> r == Some(key in j.fields)
    ensures j.Atom? <==> r.None?
  {
    match j
    case Obj(fields) => Some(key in fields)
    case Arr(items) => Some(Str(key) in items)
    case Str(text) => Some(Contains(text, key))
    case Atom(_) => None
  }

  /** The fields of `required`, in order, that `container` lacks; `None` when a test raises. */
  function MissingIn(required: seq<string>, container: Json): Option<seq<string>>
    decreases |required|
  {
    if |required| == 0 then Some([])
    else
      var n := |required| - 1;
      match MissingIn(required[..n], container)
      case None => None
      case Some(before) =>
        match Member(required[n], container)
        case None => None
        case Some(present) => Some(if present then before else before + [required[n]])
  }

  /** Over an object the tests never raise, and a field is reported exactly when it is required and absent. */
  lemma {:induction false} MissingInObject(required: seq<string>, fields: map<string, Json>, f: string)
    ensures MissingIn(required, Obj(fields)).Some?
    ensures f in MissingIn(required, Obj(fields)).value <==> f in required && f !in fields
    decreases |required|
  {
    if |required| > 0 {
      var n := |required| - 1;
      MissingInObject(required[..n], fields, f);
      assert required == required[..n] + [required[n]];
    }
  }

  /** The loop that collects the missing fields. */
  method CollectMissing(required: seq<string>, container: Json) returns (r: Option<seq<string>>)
    ensures r == MissingIn(required, container)
  {
    var missing: seq<string> := [];
    var i := 0;
    while i < |required|
      invariant 0 <= i <= |required|
      invariant MissingIn(required[..i], container) == Some(missing)
    {
      assert required[..i + 1][..i] == required[..i];
      var present := Member(required[i], container);
      if present.None? {
        assert MissingIn(required[..i + 1], container).None?;
        MissingStaysRaised(required, container, i + 1);
        return None;
      }
      if !present.value {
        missing := missing + [required[i]];
      }
      i := i + 1;
    }
    assert required[..i] == required;
    r := Some(missing);
  }

  /** Once a test has raised, the longer prefixes raise too. */
  lemma {:induction false} MissingStaysRaised(required: seq<string>, container: Json, k: nat)
    requires k <= |required| && MissingIn(required[..k], container).None?
    ensures MissingIn(required, container).None?
    decreases |required| - k
  {
    if k < |required| {
      assert required[..k + 1][..k] == required[..k];
      MissingStaysRaised(required, container, k + 1);
    } else {
      assert required[..k] == required;
    }
  }

  datatype CredentialKind = ServiceAccount | OAuthClient
  datatype AppType = Installed | Web | Direct

  /** The outcome of validation: the dictionary the source returns, by case. */
  datatype Validation =
    | ServiceAccountOk(projectId: Json, clientEmail: Json)
    | OAuthOk(appType: AppType, clientId: Json, oauthProjectId: Json)
    | MissingFields(kind: CredentialKind, missing: seq<string>, found: set<string>)
    | BadClientEmail
    | BadPrivateKey
    | NoAppData(foundFields: set<string>)
    | UnknownType(unknownFields: set<string>)
    | EmptyFile
    | InvalidJson
    | NotAnObject
    | ReadError
  {
    predicate Valid() {
      ServiceAccountOk? || OAuthOk?
    }
  }

  const ServiceAccountFields: seq<string> := [
    "type", "project_id", "private_key_id", "private_key", "client_email",
    "client_id", "auth_uri", "token_uri", "auth_provider_x509_cert_url", "client_x509_cert_url"]

  /** `not email or '@' not in email` decides "invalid"; `None` when the test raises. */
  function EmailAccepted(email: Json): (r: Option<bool>)
    ensures email.Str? ==> r == Some(email.text != "" && Contains(email.text, "@"))
  {
    if !Truthy(email) then Some(false)
    else Member("@", email)
  }

  /** `private_key.startswith('-----BEGIN')`; only a string has the method. */
  function KeyAccepted(key: Json): (r: Option<bool>)
    ensures key.Str? <==> r.Some?
    ensures key.Str? ==> r == Some(StartsWith(key.text, "-----BEGIN"))
  {
    if key.Str? then Some(StartsWith(key.text, "-----BEGIN")) else None
  }

  /**
   * `_validate_service_account_credentials`: all ten fields must be present,
   * then the e-mail must be non-empty and hold '@', then the key must open
   * with "-----BEGIN".
   */
  function ServiceAccountResult(data: map<string, Json>): (r: Validation)
    ensures r.MissingFields? <==> exists f :: f in ServiceAccountFields && f !in data
    ensures r.MissingFields? ==>
      && r.kind == ServiceAccount && r.found == data.Keys
      && forall f :: f in r.missing <==> f in ServiceAccountFields && f !in data
    ensures r.Valid() ==> r.ServiceAccountOk?
    ensures !r.UnknownType?
    ensures r.ServiceAccountOk? <==>
      && (forall f :: f in ServiceAccountFields ==> f in data)
      && EmailAccepted(data["client_email"]) == Some(true) && KeyAccepted(data["private_key"]) == Some(true)
    ensures r == BadClientEmail <==>
      && (forall f :: f in ServiceAccountFields ==> f in data)
      && EmailAccepted(data["client_email"]) == Some(false)
    ensures r.ServiceAccountOk? ==> r.projectId == data["project_id"] && r.clientEmail == data["client_email"]
  {
    MissingInObjectAll(ServiceAccountFields, data);
    var missing := MissingIn(ServiceAccountFields, Obj(data)).value;
    if missing != [] then MissingFields(ServiceAccount, missing, data.Keys)
    else
      match EmailAccepted(data["client_email"])
      case None => ReadError
      case Some(false) => BadClientEmail
      case Some(true) =>
        match KeyAccepted(data["private_key"])
        case None => ReadError
        case Some(false) => BadPrivateKey
        case Some(true) => ServiceAccountOk(data["project_id"], data["client_email"])
  }

  /** The membership lemma for every field at once. */
  lemma MissingInObjectAll(required: seq<string>, fields: map<string, Json>)
    ensures MissingIn(required, Obj(fields)).Some?
    ensures forall f :: f in MissingIn(required, Obj(fields)).value <==> f in required && f !in fields
    ensures MissingIn(required, Obj(fields)).value == [] <==> forall f :: f in required ==> f in fields
  {
    MissingInObject(required, fields, "");
    forall f
      ensures f in MissingIn(required, Obj(fields)).value <==> f in required && f !in fields
    {
      MissingInObject(required, fields, f);
    }
    var missing := MissingIn(required, Obj(fields)).value;
    if missing != [] {
      assert missing[0] in missing;
    }
  }

  /** The service-account validator with its loop. */
  method ValidateServiceAccountCredentials(data: map<string, Json>) returns (r: Validation)
    ensures r == ServiceAccountResult(data)
  {
    MissingInObjectAll(ServiceAccountFields, data);
    var missing := CollectMissing(ServiceAccountFields, Obj(data));
    if missing.value != [] {
      return MissingFields(ServiceAccount, missing.value, data.Keys);
    }
    var email := EmailAccepted(data["client_email"]);
    if email.None? {
      return ReadError;
    } else if !email.value {
      return BadClientEmail;
    }
    var key := KeyAccepted(data["private_key"]);
    if key.None? {
      return ReadError;
    } else if !key.value {
      return BadPrivateKey;
    }
    r := ServiceAccountOk(data["project_id"], data["client_email"]);
  }

  /** Which application data the OAuth validator reads: "installed", then "web", then the top level. */
  function SelectApp(data: map<string, Json>): (r: Option<(AppType, Json)>)
    ensures "installed" in data ==> r == Some((Installed, data["installed"]))
    ensures "installed" !in data && "web" in data ==> r == Some((Web, data["web"]))
    ensures "installed" !in data && "web" !in data ==>
      (r.Some? <==> "client_id" in data && "client_secret" in data)
    ensures r.Some? && r.value.0 == Direct ==> r.value.1 == Obj(data)
  {
    if "installed" in data then Some((Installed, data["installed"]))
    else if "web" in data then Some((Web, data["web"]))
    else if "client_id" in data && "client_secret" in data then Some((Direct, Obj(data)))
    else None
  }

  const OAuthFields: seq<string> := ["client_id", "client_secret"]

  /**
   * `_validate_oauth_client_credentials`.  Application data that is empty
   * counts as absent.  Application data that is present but not an object
   * fails further on, where the source asks it for its keys or for a
   * field (or, for a number, already at the membership test), and the
   * exception becomes a read error.
   */
  function OAuthResult(data: map<string, Json>): (r: Validation)
    ensures r.Valid() ==> r.OAuthOk?
    ensures !r.UnknownType?
    ensures r.NoAppData? <==> SelectApp(data).None? || !Truthy(SelectApp(data).value.1)
    ensures r.OAuthOk? <==>
      && SelectApp(data).Some? && SelectApp(data).value.1.Obj?
      && "client_id" in SelectApp(data).value.1.fields && "client_secret" in SelectApp(data).value.1.fields
    ensures r.OAuthOk? ==> var app := SelectApp(data).value;
      && r.appType == app.0
      && r.clientId == app.1.fields["client_id"]
      && r.oauthProjectId == (if "project_id" in app.1.fields then app.1.fields["project_id"] else Str("Unknown"))
    ensures r.MissingFields? ==>
      && r.kind == OAuthClient && SelectApp(data).value.1.Obj?
      && forall f :: f in r.missing <==> f in OAuthFields && f !in SelectApp(data).value.1.fields
    ensures SelectApp(data).Some? && Truthy(SelectApp(data).value.1) && !SelectApp(data).value.1.Obj? ==> r == ReadError
  {
    match SelectApp(data)
    case None => NoAppData(data.Keys)
    case Some((appType, app)) =>
      if !Truthy(app) then NoAppData(data.Keys)
      else if !app.Obj? then ReadError
      else
        MissingInObjectAll(OAuthFields, app.fields);
        var missing := MissingIn(OAuthFields, app).value;
        if missing != [] then MissingFields(OAuthClient, missing, app.fields.Keys)
        else OAuthOk(appType, app.fields["client_id"],
                     if "project_id" in app.fields then app.fields["project_id"] else Str("Unknown"))
  }

  /** The OAuth validator with its loop. */
  method ValidateOAuthClientCredentials(data: map<string, Json>) returns (r: Validation)
    ensures r == OAuthResult(data)
  {
    var selected := SelectApp(data);
    if selected.None? || !Truthy(selected.value.1) {
      return NoAppData(data.Keys);
    }
    var (appType, app) := selected.value;
    var missing := CollectMissing(OAuthFields, app);
    if missing.None? || !app.Obj? {
      return ReadError;
    }
    MissingInObjectAll(OAuthFields, app.fields);
    if missing.value != [] {
      return MissingFields(OAuthClient, missing.value, app.fields.Keys);
    }
    r := OAuthOk(appType, app.fields["client_id"],
                 if "project_id" in app.fields then app.fields["project_id"] else Str("Unknown"));
  }

  /** What reading the credentials file gives. */
  datatype FileRead = Unreadable | Content(text: string)

  /** `type` is present and equals "service_account". */
  predicate IsServiceAccount(data: map<string, Json>) {
    "type" in data && data["type"] == Str("service_account")
  }

  predicate LooksLikeOAuth(data: map<string, Json>) {
    "installed" in data || "web" in data || ("client_id" in data && "client_secret" in data)
  }

  /**
   * `_validate_credentials_file`: the stripped content must be non-empty
   * JSON holding an object; a service-account type is checked as one, an
   * object with OAuth fields as OAuth, anything else is of unknown type.
   * `decode` stands for the JSON decoder, `None` for a decoding error.
   */
  function ValidateCredentialsFile(file: FileRead, decode: string -> Option<Json>): (r: Validation)
    ensures file.Unreadable? ==> r == ReadError
    ensures file.Content? && Strip(file.text) == "" ==> r == EmptyFile
    ensures r.Valid() ==> file.Content? && decode(Strip(file.text)).Some? && decode(Strip(file.text)).value.Obj?
    ensures r.UnknownType? <==>
      && file.Content? && Strip(file.text) != "" && decode(Strip(file.text)).Some?
      && decode(Strip(file.text)).value.Obj? && !IsServiceAccount(decode(Strip(file.text)).value.fields)
      && !LooksLikeOAuth(decode(Strip(file.text)).value.fields)
    ensures r.ServiceAccountOk? ==> IsServiceAccount(decode(Strip(file.text)).value.fields)
    ensures r.OAuthOk? ==>
      && !IsServiceAccount(decode(Strip(file.text)).value.fields)
      && LooksLikeOAuth(decode(Strip(file.text)).value.fields)
  {
    match file
    case Unreadable => ReadError
    case Content(text) =>
      var content := Strip(text);
      if content == "" then EmptyFile
      else
        match decode(content)
        case None => InvalidJson
        case Some(value) =>
          if !value.Obj? then NotAnObject
          else if IsServiceAccount(value.fields) then ServiceAccountResult(value.fields)
          else if LooksLikeOAuth(value.fields) then OAuthResult(value.fields)
          else UnknownType(value.fields.Keys)
  }

  /** A valid service-account result means every one of the ten fields was in the file's object. */
  lemma ValidServiceAccountHasAllFields(file: FileRead, decode: string -> Option<Json>)
    requires ValidateCredentialsFile(file, decode).ServiceAccountOk?
    ensures forall f :: f in ServiceAccountFields ==> f in decode(Strip(file.text)).value.fields
  {
  }

  /** A service-account type wins over OAuth fields in the same object. */
  lemma ServiceAccountTypeWins(text: string, decode: string -> Option<Json>, fields: map<string, Json>)
    requires Strip(text) != "" && decode(Strip(text)) == Some(Obj(fields))
    requires IsServiceAccount(fields) && "installed" in fields
    ensures ValidateCredentialsFile(Content(text), decode) == ServiceAccountResult(fields)
  {
  }

  // ----- Section formatters -------------------------------------------------------

  /** "• <item>\n" for each item. */
  function Bullets(items: seq<string>): (r: seq<string>)
    ensures |r| == |items|
    ensures forall i :: 0 <= i < |items| ==> r[i] == "• " + items[i] + "\n"
    decreases |items|
  {
    if |items| == 0 then [] else Bullets(items[..|items| - 1]) + ["• " + items[|items| - 1] + "\n"]
  }

  /** The Bayley-4 record as the formatter reads it; dictionaries with an order are item lists. */
  datatype BayleyRecord = BayleyRecord(
    compositeScores: seq<(string, string)>,
    interpretations: map<string, map<string, string>>,
    rawScores: seq<(string, string)>,
    scaledScores: map<string, string>,
    ageEquivalents: map<string, string>)

  function CompositeLine(b: BayleyRecord, composite: string, score: string): string {
    var interpretation := if composite in b.interpretations then b.interpretations[composite] else map[];
    "• " + composite + ": " + score + " (" + GetOr(interpretation, "classification", "Not available")
      + ", " + GetOr(interpretation, "percentile", "Not available") + "th percentile)\n"
  }

  function DomainScoreLine(b: BayleyRecord, domain: string, raw: string): string {
    "• " + domain + ": Raw Score " + raw + ", Scaled Score " + GetOr(b.scaledScores, domain, "N/A")
      + ", Age Equivalent " + GetOr(b.ageEquivalents, domain, "N/A") + "\n"
  }

  const BayleyTitle := "Bayley Scales of Infant and Toddler Development, Fourth Edition (Bayley-4)\n\n"

  function CompositeLines(b: BayleyRecord, items: seq<(string, string)>): (r: seq<string>)
    ensures |r| == |items|
    ensures forall i :: 0 <= i < |items| ==> r[i] == CompositeLine(b, items[i].0, items[i].1)
    decreases |items|
  {
    if |items| == 0 then []
    else
      var n := |items| - 1;
      CompositeLines(b, items[..n]) + [CompositeLine(b, items[n].0, items[n].1)]
  }

  function DomainScoreLines(b: BayleyRecord, items: seq<(string, string)>): (r: seq<string>)
    ensures |r| == |items|
    ensures forall i :: 0 <= i < |items| ==> r[i] == DomainScoreLine(b, items[i].0, items[i].1)
    decreases |items|
  {
    if |items| == 0 then []
    else
      var n := |items| - 1;
      DomainScoreLines(b, items[..n]) + [DomainScoreLine(b, items[n].0, items[n].1)]
  }

  /** The composite block: present only when there are composite scores. */
  function CompositeBlock(b: BayleyRecord): seq<string> {
    if b.compositeScores == [] then []
    else ["Composite Scores:\n"] + CompositeLines(b, b.compositeScores) + ["\n"]
  }

  /** The domain block: present when raw or scaled scores exist; one line per raw-score domain. */
  function DomainBlock(b: BayleyRecord): seq<string> {
    if b.rawScores == [] && b.scaledScores == map[] then []
    else ["Domain Scores:\n"] + DomainScoreLines(b, b.rawScores) + ["\n"]
  }

  /** The composite loop. */
  method AppendCompositeLines(content: seq<string>, b: BayleyRecord) returns (r: seq<string>)
    ensures r == content + CompositeLines(b, b.compositeScores)
  {
    r := content;
    var i := 0;
    while i < |b.compositeScores|
      invariant 0 <= i <= |b.compositeScores|
      invariant r == content + CompositeLines(b, b.compositeScores[..i])
    {
      assert b.compositeScores[..i + 1][..i] == b.compositeScores[..i];
      var (composite, score) := b.compositeScores[i];
      r := r + [CompositeLine(b, composite, score)];
      i := i + 1;
    }
    assert b.compositeScores[..i] == b.compositeScores;
  }

  /** The domain loop. */
  method AppendDomainScoreLines(content: seq<string>, b: BayleyRecord) returns (r: seq<string>)
    ensures r == content + DomainScoreLines(b, b.rawScores)
  {
    r := content;
    var i := 0;
    while i < |b.rawScores|
      invariant 0 <= i <= |b.rawScores|
      invariant r == content + DomainScoreLines(b, b.rawScores[..i])
    {
      assert b.rawScores[..i + 1][..i] == b.rawScores[..i];
      var (domain, raw) := b.rawScores[i];
      r := r + [DomainScoreLine(b, domain, raw)];
      i := i + 1;
    }
    assert b.rawScores[..i] == b.rawScores;
  }

  /**
   * `_format_bayley4_results`: the title, then the composite block, then
   * the domain block.
   */
  method FormatBayley4Results(b: BayleyRecord) returns (content: seq<string>)
    ensures content == [BayleyTitle] + CompositeBlock(b) + DomainBlock(b)
  {
    content := AppendCompositeBlock([BayleyTitle], b);
    content := AppendDomainBlock(content, b);
  }

  method AppendCompositeBlock(content: seq<string>, b: BayleyRecord) returns (r: seq<string>)
    ensures r == content + CompositeBlock(b)
  {
    r := content;
    if |b.compositeScores| > 0 {
      r := AppendCompositeLines(r + ["Composite Scores:\n"], b);
      r := r + ["\n"];
    }
  }

  method AppendDomainBlock(content: seq<string>, b: BayleyRecord) returns (r: seq<string>)
    ensures r == content + DomainBlock(b)
  {
    r := content;
    if |b.rawScores| > 0 || b.scaledScores != map[] {
      r := AppendDomainScoreLines(r + ["Domain Scores:\n"], b);
      r := r + ["\n"];
    }
  }

  /**
   * Each raw-score domain gets exactly one line, in order, and a domain
   * with no scaled score or age equivalent shows "N/A" there.
   */
  lemma DomainLinesPerRawScore(b: BayleyRecord, i: nat)
    requires i < |b.rawScores|
    ensures |DomainBlock(b)| == |b.rawScores| + 2
    ensures DomainBlock(b)[i + 1] == DomainScoreLine(b, b.rawScores[i].0, b.rawScores[i].1)
  {
  }

  /** A domain with no scaled score and no age equivalent shows "N/A" for both. */
  lemma DomainLineWithoutScores(b: BayleyRecord, domain: string, raw: string)
    requires domain !in b.scaledScores && domain !in b.ageEquivalents
    ensures DomainScoreLine(b, domain, raw)
      == "• " + domain + ": Raw Score " + raw + ", Scaled Score N/A, Age Equivalent N/A\n"
  {
  }

  /** An assessment record: a dictionary with its three lists, or some other value. */
  datatype Assessment = Record(strengths: seq<string>, needs: seq<string>, recommendations: seq<string>) | NotARecord

  datatype ListField = StrengthList | NeedList | RecommendationList

  function FieldOf(a: Assessment, field: ListField): seq<string>
    requires a.Record?
  {
    match field
    case StrengthList => a.strengths
    case NeedList => a.needs
    case RecommendationList => a.recommendations
  }

  /** One list gathered across the assessments, in their order, skipping non-records. */
  function Gathered(assessments: seq<(string, Assessment)>, field: ListField): seq<string>
    decreases |assessments|
  {
    if |assessments| == 0 then []
    else
      var n := |assessments| - 1;
      Gathered(assessments[..n], field)
        + (if assessments[n].1.Record? then FieldOf(assessments[n].1, field) else [])
  }

  /** Every gathered item comes from some record, and every record's items are gathered. */
  lemma {:induction false} GatheredMembership(assessments: seq<(string, Assessment)>, field: ListField, x: string)
    ensures x in Gathered(assessments, field) <==>
      exists i :: 0 <= i < |assessments| && assessments[i].1.Record? && x in FieldOf(assessments[i].1, field)
    decreases |assessments|
  {
    if |assessments| > 0 {
      var n := |assessments| - 1;
      var init := assessments[..n];
      GatheredMembership(init, field, x);
      if x in Gathered(init, field) {
        var i :| 0 <= i < |init| && init[i].1.Record? && x in FieldOf(init[i].1, field);
        assert assessments[i] == init[i];
      }
      if exists i :: 0 <= i < |assessments| && assessments[i].1.Record? && x in FieldOf(assessments[i].1, field) {
        var i :| 0 <= i < |assessments| && assessments[i].1.Record? && x in FieldOf(assessments[i].1, field);
        if i < n {
          assert init[i] == assessments[i];
        }
      }
    }
  }

  /** The gathering loop over the assessments. */
  method Gather(assessments: seq<(string, Assessment)>, field: ListField) returns (items: seq<string>)
    ensures items == Gathered(assessments, field)
  {
    items := [];
    var i := 0;
    while i < |assessments|
      invariant 0 <= i <= |assessments|
      invariant items == Gathered(assessments[..i], field)
    {
      assert assessments[..i + 1][..i] == assessments[..i];
      if assessments[i].1.Record? {
        items := items + FieldOf(assessments[i].1, field);
      }
      i := i + 1;
    }
    assert assessments[..i] == assessments;
  }

  const DefaultStrengthBullets: seq<string> := [
    "• Demonstrates age-appropriate visual attention and engagement\n",
    "• Shows interest in social interaction with familiar adults\n",
    "• Exhibits appropriate emotional responses to routine activities\n",
    "• Demonstrates emerging problem-solving strategies\n"]

  const DefaultNeedBullets: seq<string> := [
    "• Fine motor coordination and precision skills\n",
    "• Gross motor balance and postural control\n",
    "• Sensory processing and modulation strategies\n",
    "• Adaptive behavior skills for daily activities\n"]

  /** The bullets of a gathered list, or its defaults when it is empty. */
  function BulletsOr(items: seq<string>, defaults: seq<string>): (r: seq<string>)
    ensures items != [] ==> r == Bullets(items)
    ensures items == [] ==> r == defaults
  {
    if items != [] then Bullets(items) else defaults
  }

  /**
   * `_format_findings_analysis`: strengths and needs gathered across the
   * records, each list independently replaced by its four defaults when
   * empty.
   */
  method FormatFindingsAnalysis(assessments: seq<(string, Assessment)>) returns (content: seq<string>)
    ensures var strengths := BulletsOr(Gathered(assessments, StrengthList), DefaultStrengthBullets);
      var needs := BulletsOr(Gathered(assessments, NeedList), DefaultNeedBullets);
      content == ["FINDINGS AND ANALYSIS\n\n", "Areas of Strength:\n"] + strengths + ["\n", "Areas of Need:\n"] + needs + ["\n"]
  {
    var strengths := Gather(assessments, StrengthList);
    var needs := Gather(assessments, NeedList);
    content := ["FINDINGS AND ANALYSIS\n\n", "Areas of Strength:\n"];
    if |strengths| > 0 {
      content := content + Bullets(strengths);
    } else {
      content := content + DefaultStrengthBullets;
    }
    content := content + ["\n", "Areas of Need:\n"];
    if |needs| > 0 {
      content := content + Bullets(needs);
    } else {
      content := content + DefaultNeedBullets;
    }
    content := content + ["\n"];
  }

  /** The strength block has one line per gathered strength, or exactly four lines. */
  lemma StrengthBlockSize(assessments: seq<(string, Assessment)>)
    ensures var s := Gathered(assessments, StrengthList);
      |BulletsOr(s, DefaultStrengthBullets)| == if s == [] then 4 else |s|
  {
  }

  const DefaultDocsRecommendations: seq<string> := [
    "Individual occupational therapy services to address identified areas of need",
    "Sensory integration therapy to support sensory processing challenges",
    "Fine motor skill development through structured play activities",
    "Feeding therapy to address oral motor and swallowing concerns",
    "Parent education and training for home-based intervention strategies",
    "Environmental modifications to support optimal development",
    "Interdisciplinary team collaboration for comprehensive care",
    "Regular reassessment to monitor progress and adjust interventions"]

  /**
   * `_format_recommendations`: the gathered recommendations, or the eight
   * defaults, numbered from 1, between the heading and a blank line.
   */
  method FormatRecommendations(assessments: seq<(string, Assessment)>) returns (content: seq<string>)
    ensures var gathered := Gathered(assessments, RecommendationList);
      var items := if gathered == [] then DefaultDocsRecommendations else gathered;
      && |content| == |items| + 2
      && content[0] == "RECOMMENDATIONS\n\n" && content[|content| - 1] == "\n"
      && forall i :: 0 <= i < |items| ==> content[i + 1] == NatToString(i + 1) + ". " + items[i] + "\n"
  {
    var items := Gather(assessments, RecommendationList);
    if |items| == 0 {
      items := DefaultDocsRecommendations;
    }
    content := ["RECOMMENDATIONS\n\n"];
    var i := 0;
    while i < |items|
      invariant 0 <= i <= |items|
      invariant |content| == i + 1 && content[0] == "RECOMMENDATIONS\n\n"
      invariant forall k :: 0 <= k < i ==> content[k + 1] == NatToString(k + 1) + ". " + items[k] + "\n"
    {
      content := content + [NatToString(i + 1) + ". " + items[i] + "\n"];
      i := i + 1;
    }
    content := content + ["\n"];
  }
}
