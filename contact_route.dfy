/**
  The contact endpoint: the server's copy of the lead schema and `POST`, which turns a
  request body into one of three responses (200 with a summary, 400 with the validation
  issues, 500 with no detail). Logging is the handler's only side effect and is not modelled.
 */
module ContactRoute {
  import opened Wrappers
  import opened Zod
  import opened Lead

  /** The server's `contactFormSchema`, field by field in declaration order. */
  const ContactFormSchema: seq<FieldRule> := [
    FieldRule("fullName", StringMin(2), Custom("Full name is required")),
    FieldRule("committee", StringMin(2), Custom("Committee/Campaign name is required")),
    FieldRule("officeLevel", Enum(OfficeLevelNames), BuiltIn),
    FieldRule("state", StringMin(2), Custom("State is required")),
    FieldRule("email", StringEmail, Custom("Please enter a valid email address")),
    FieldRule("phone", OptionalString, BuiltIn),
    FieldRule("products", StringArrayMin(1), Custom("Please select at least one product type")),
    FieldRule("quantities", StringMin(1), Custom("Please provide approximate quantities")),
    FieldRule("timeline", StringMin(1), Custom("Timeline/key dates are required")),
    FieldRule("paidForBy", StringMin(1), Custom("\"Paid for by\" line is required")),
    FieldRule("notes", OptionalString, BuiltIn),
    FieldRule("consent", TrueBoolean, Custom("You must agree to be contacted"))
  ]

  /** What `request.json()` produced: a parse failure, or a JSON value of any shape. */
  datatype RequestBody = Unparseable | Parsed(json: Json)

  datatype Summary = Summary(campaign: string, contact: string, email: string, products: seq<string>, timeline: string)

  /** The JSON body of a response: `{ success, message, summary?, errors? }`. */
  datatype Envelope = Envelope(success: bool, message: string, summary: Option<Summary>, errors: Option<seq<Issue>>)

  datatype Response = Response(status: int, body: Envelope)

  /** The server schema accepts exactly the payloads that satisfy the lead rules. */
  lemma ServerSchemaIff(body: Json, isEmail: string -> bool)
    ensures CheckObject(ContactFormSchema, body, isEmail) == [] <==> SatisfiesLeadRules(body, isEmail)
  {
    if body.JObject? {
      var f, s := body.fields, ContactFormSchema;
      if SatisfiesLeadRules(body, isEmail) {
        forall i | 0 <= i < |s| ensures Satisfies(s[i], f, isEmail) {
          if i == 2 {
            assert f["officeLevel"].s in OfficeLevelNames;
          }
        }
      } else {
        var bad: nat :| bad < 12 && !Satisfies(s[bad], f, isEmail) by {
          RuleBroken(body, isEmail);
        }
      }
    }
  }

  /** When a payload breaks the lead rules, some field of the schema is unsatisfied. */
  lemma RuleBroken(body: Json, isEmail: string -> bool)
    requires body.JObject? && !SatisfiesLeadRules(body, isEmail)
    ensures exists i: nat | i < 12 :: !Satisfies(ContactFormSchema[i], body.fields, isEmail)
  {
    var f, s := body.fields, ContactFormSchema;
    if !StringOfLength(f, "fullName", 2) { assert !Satisfies(s[0], f, isEmail); }
    else if !StringOfLength(f, "committee", 2) { assert !Satisfies(s[1], f, isEmail); }
    else if !("officeLevel" in f && f["officeLevel"] in {JString("Local"), JString("State"), JString("Federal")}) {
      assert !Satisfies(s[2], f, isEmail);
    }
    else if !StringOfLength(f, "state", 2) { assert !Satisfies(s[3], f, isEmail); }
    else if !("email" in f && f["email"].JString? && isEmail(f["email"].s)) { assert !Satisfies(s[4], f, isEmail); }
    else if !AbsentOrString(f, "phone") { assert !Satisfies(s[5], f, isEmail); }
    else if !NonEmptyStringList(f, "products") { assert !Satisfies(s[6], f, isEmail); }
    else if !StringOfLength(f, "quantities", 1) { assert !Satisfies(s[7], f, isEmail); }
    else if !StringOfLength(f, "timeline", 1) { assert !Satisfies(s[8], f, isEmail); }
    else if !StringOfLength(f, "paidForBy", 1) { assert !Satisfies(s[9], f, isEmail); }
    else if !AbsentOrString(f, "notes") { assert !Satisfies(s[10], f, isEmail); }
    else { assert !Satisfies(s[11], f, isEmail); }
  }

  /** The `summary` of a success response: campaign is the committee, contact the full name. */
  function SummaryOf(lead: Lead): (summary: Summary)
    ensures summary.campaign == lead.committee && summary.contact == lead.fullName
    ensures summary.email == lead.email && summary.products == lead.products && summary.timeline == lead.timeline
  {
    Summary(lead.committee, lead.fullName, lead.email, lead.products, lead.timeline)
  }

  /** The `POST` handler: parse, validate with the server schema, answer. */
  function Post(request: RequestBody, isEmail: string -> bool): (response: Response)
    ensures response.status == 200 <==> request.Parsed? && SatisfiesLeadRules(request.json, isEmail)
    ensures response.status == 400 <==> request.Parsed? && !SatisfiesLeadRules(request.json, isEmail)
    ensures response.status == 500 <==> request.Unparseable?
    ensures response.body.success <==> response.status == 200
    ensures response.body.summary.Some? <==> response.status == 200
    ensures response.body.errors.Some? <==> response.status == 400
    ensures response.status == 200 ==> response.body.message == "Request submitted successfully"
    ensures response.status == 400 ==>
      && response.body.message == "Validation failed"
      && response.body.errors == Some(CheckObject(ContactFormSchema, request.json, isEmail))
      && response.body.errors.value != []
    ensures response.status == 500 ==> response.body.message == "Internal server error"
  {
    match request
    case Unparseable =>
      Response(500, Envelope(false, "Internal server error", None, None))
    case Parsed(json) =>
      ServerSchemaIff(json, isEmail);
      match Parse(ContactFormSchema, json, isEmail)
      case Err(issues) =>
        Response(400, Envelope(false, "Validation failed", None, Some(issues)))
      case Ok(data) =>
        ServerSchemaIff(data, isEmail);
        var lead := ToLead(data, isEmail);
        Response(200, Envelope(true, "Request submitted successfully", Some(SummaryOf(lead)), None))
  }

  /** A valid payload is echoed back: campaign is the committee, contact the full name,
      and e-mail, products (same order) and timeline as submitted. */
  lemma PostEchoesSubmission(json: Json, isEmail: string -> bool)
    requires SatisfiesLeadRules(json, isEmail)
    ensures var f := json.fields;
      Post(Parsed(json), isEmail).body.summary ==
        Some(Summary(f["committee"].s, f["fullName"].s, f["email"].s, Strings(f["products"].items), f["timeline"].s))
  {
    var data := Parse(ContactFormSchema, json, isEmail);
    ServerSchemaIff(json, isEmail);
    var f := json.fields;
    assert data.value.fields == Strip(f, ContactFormSchema);
    assert "committee" == ContactFormSchema[1].key && "fullName" == ContactFormSchema[0].key;
    assert "email" == ContactFormSchema[4].key && "products" == ContactFormSchema[6].key;
    assert "timeline" == ContactFormSchema[8].key;
  }

  /** A payload whose `consent` is `false` is refused with the consent message. */
  lemma ConsentRefusedIsReported(json: Json, isEmail: string -> bool)
    requires json.JObject? && "consent" in json.fields && json.fields["consent"] == JBool(false)
    ensures var response := Post(Parsed(json), isEmail);
      response.status == 400
      && Issue([Key("consent")], CustomCheck, Custom("You must agree to be contacted")) in response.body.errors.value
  {
    var s := ContactFormSchema;
    assert CheckField(s[11], json.fields, isEmail) == [Issue([Key("consent")], CustomCheck, Custom("You must agree to be contacted"))];
    FieldIssuesReported(s, 11, json.fields, isEmail);
  }

  /** Every rule a payload breaks is reported: validation does not stop at the first failure. */
  lemma EveryViolationReported(json: Json, i: nat, isEmail: string -> bool)
    requires json.JObject? && i < |ContactFormSchema|
    requires !Satisfies(ContactFormSchema[i], json.fields, isEmail)
    ensures var response := Post(Parsed(json), isEmail);
      response.status == 400
      && exists issue | issue in response.body.errors.value :: |issue.path| > 0 && issue.path[0] == Key(ContactFormSchema[i].key)
  {
    var here := CheckField(ContactFormSchema[i], json.fields, isEmail);
    FieldIssuesReported(ContactFormSchema, i, json.fields, isEmail);
    assert here[0] in here;
  }

  function RequiredRuleIndex(key: string): (i: nat)
    requires key in RequiredKeys
    ensures i < |ContactFormSchema| && ContactFormSchema[i].key == key && ContactFormSchema[i].check != OptionalString
  {
    if key == "fullName" then 0 else if key == "committee" then 1 else if key == "officeLevel" then 2
    else if key == "state" then 3 else if key == "email" then 4 else if key == "products" then 6
    else if key == "quantities" then 7 else if key == "timeline" then 8 else if key == "paidForBy" then 9
    else 11
  }

  /** A payload missing a required field is refused with a type issue at that field. */
  lemma MissingFieldReported(json: Json, key: string, isEmail: string -> bool)
    requires json.JObject? && key in RequiredKeys && key !in json.fields
    ensures var response := Post(Parsed(json), isEmail);
      response.status == 400
      && exists issue | issue in response.body.errors.value :: issue.path == [Key(key)] && issue.code == InvalidType
  {
    var i := RequiredRuleIndex(key);
    var here := CheckField(ContactFormSchema[i], json.fields, isEmail);
    assert here[0].path == [Key(key)] && here[0].code == InvalidType;
    FieldIssuesReported(ContactFormSchema, i, json.fields, isEmail);
    assert here[0] in here;
  }

  /** A body that is JSON but not an object fails validation at the root, not with a 500. */
  lemma NonObjectBodyRejected(json: Json, isEmail: string -> bool)
    requires !json.JObject?
    ensures Post(Parsed(json), isEmail) == Response(400, Envelope(false, "Validation failed", None, Some([Issue([], InvalidType, BuiltIn)])))
  {
  }

  /** `phone` and `notes` may be left out or given as any strings without changing validity. */
  lemma OptionalFieldsFree(json: Json, phone: Option<string>, notes: Option<string>, isEmail: string -> bool)
    requires SatisfiesLeadRules(json, isEmail)
    ensures var f := json.fields - {"phone", "notes"};
      var f' := if phone.Some? then f["phone" := JString(phone.value)] else f;
      var f'' := if notes.Some? then f'["notes" := JString(notes.value)] else f';
      Post(Parsed(JObject(f'')), isEmail).status == 200
  {
    var f := json.fields - {"phone", "notes"};
    var f' := if phone.Some? then f["phone" := JString(phone.value)] else f;
    var f'' := if notes.Some? then f'["notes" := JString(notes.value)] else f';
    assert forall k | k in json.fields && k != "phone" && k != "notes" :: k in f'' && f''[k] == json.fields[k];
    assert SatisfiesLeadRules(JObject(f''), isEmail);
  }

  /** `state` is only length-checked: any string of at least two characters passes,
      whether or not it is one of the fifty postal codes the form offers. */
  lemma AnyStateAccepted(json: Json, state: string, isEmail: string -> bool)
    requires SatisfiesLeadRules(json, isEmail) && |state| >= 2
    ensures Post(Parsed(JObject(json.fields["state" := JString(state)])), isEmail).status == 200
  {
  }

  /** `products` is only checked for being a non-empty list of strings: any such list
      passes, whether or not its entries are among the product types the form offers. */
  lemma AnyProductsAccepted(json: Json, products: seq<string>, isEmail: string -> bool)
    requires SatisfiesLeadRules(json, isEmail) && |products| >= 1
    ensures var items := seq(|products|, k requires 0 <= k < |products| => JString(products[k]));
      Post(Parsed(JObject(json.fields["products" := JArray(items)])), isEmail).status == 200
  {
  }
}
