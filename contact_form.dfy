/**
  The lead form on the client: its own copy of the schema, the default values, and the
  submission status that `onSubmit` drives. The network request is not modelled: its
  outcome (a response that is ok, one that is not, or a thrown error) is an input.
 */
module ContactFormComponent {
  import opened Wrappers
  import opened Zod
  import opened Lead
  import ContactRoute

  /** The client's `contactFormSchema`: the server's rules, with a message on `officeLevel`. */
  const ContactFormSchema: seq<FieldRule> := [
    FieldRule("fullName", StringMin(2), Custom("Full name is required")),
    FieldRule("committee", StringMin(2), Custom("Committee/Campaign name is required")),
    FieldRule("officeLevel", Enum(OfficeLevelNames), Custom("Please select office level")),
    FieldRule("state", StringMin(2), Custom("State is required")),
    FieldRule("email", StringEmail, Custom("Please enter a valid email address")),
    FieldRule("phone", OptionalString, BuiltIn),
    FieldRule("products", StringArrayMin(1), Custom("Please select at least one product type")),
    FieldRule("quantities", StringMin(1), Custom("Please provide approximate quantities")),
    FieldRule("timeline", StringMin(1), Custom("Timeline/key dates are required")),
    FieldRule("paidForBy", StringMin(1), Custom("\"Paid for by\" line is required")),
    FieldRule("notes", OptionalString, BuiltIn),
    FieldRule("consent", TrueBoolean, Custom("You must agree to be contacted"))
  ]

  const ThankYouMessage: string := "Thanks! We'll reach out shortly to finalize details."
  const ErrorMessage: string :=
    "Sorry, there was an error submitting your request. Please try again or email us directly."

  datatype SubmitStatus = Idle | Success | Error

  /** How the request settled: a response (with its `ok` flag), or a thrown error. */
  datatype FetchOutcome = Responded(ok: bool) | Threw

  /** What the browser reports for a response of the contact endpoint: `ok` is a 2xx status. */
  function OutcomeOf(response: ContactRoute.Response): (outcome: FetchOutcome)
    ensures outcome.Responded? && (outcome.ok <==> 200 <= response.status <= 299)
  {
    Responded(200 <= response.status <= 299)
  }

  /** The form's `defaultValues`: only `products`, holding the preselected intent when the
      prop is a non-empty string (JavaScript truthiness), and empty otherwise. */
  function DefaultValues(preselectedIntent: Option<string>): (values: map<string, Json>)
    ensures values.Keys == {"products"}
    ensures preselectedIntent.Some? && preselectedIntent.value != "" ==>
      values["products"] == JArray([JString(preselectedIntent.value)])
    ensures preselectedIntent.None? || preselectedIntent.value == "" ==> values["products"] == JArray([])
  {
    map["products" := JArray(
      if preselectedIntent.Some? && preselectedIntent.value != "" then [JString(preselectedIntent.value)] else [])]
  }

  /** The endpoint's answer is ok exactly for a parsed payload that satisfies the lead rules:
      a rejected payload and a server failure both land in the form's error branch. */
  lemma ResponseOkIffValid(request: ContactRoute.RequestBody, isEmail: string -> bool)
    ensures OutcomeOf(ContactRoute.Post(request, isEmail)) == Responded(true)
      <==> request.Parsed? && SatisfiesLeadRules(request.json, isEmail)
  {
  }

  /** The browser's own check of the `type="email"` input, which runs before the submit
      handler: the form has no `noValidate`. The HTML e-mail grammar is the parameter
      `browserAcceptsEmail`; an input the form does not hold a string for is not checked. */
  predicate BrowserAllowsSubmit(values: map<string, Json>, browserAcceptsEmail: string -> bool)
  {
    "email" in values && values["email"].JString? ==> browserAcceptsEmail(values["email"].s)
  }

  /** The two schemas list the same fields with the same checks; only the messages of
      `officeLevel` differ. */
  lemma SchemasDifferOnlyInOfficeLevelMessage()
    ensures |ContactFormSchema| == |ContactRoute.ContactFormSchema|
    ensures forall i | 0 <= i < |ContactFormSchema| ::
      ContactFormSchema[i].key == ContactRoute.ContactFormSchema[i].key
      && ContactFormSchema[i].check == ContactRoute.ContactFormSchema[i].check
    ensures forall i | 0 <= i < |ContactFormSchema| && i != 2 :: ContactFormSchema[i] == ContactRoute.ContactFormSchema[i]
    ensures ContactFormSchema[2].key == "officeLevel"
    ensures ContactFormSchema[2].message == Custom("Please select office level")
    ensures ContactRoute.ContactFormSchema[2].message == BuiltIn
  {
  }

  /** Client and server report issues at the same paths with the same codes, in the same
      order, on every input: the same verdict, namely the lead rules. */
  lemma ClientAgreesWithServer(body: Json, isEmail: string -> bool)
    ensures SameIssueShape(CheckObject(ContactFormSchema, body, isEmail), CheckObject(ContactRoute.ContactFormSchema, body, isEmail))
    ensures CheckObject(ContactFormSchema, body, isEmail) == [] <==> SatisfiesLeadRules(body, isEmail)
  {
    SchemasDifferOnlyInOfficeLevelMessage();
    if body.JObject? {
      SameChecksSameIssueShape(ContactFormSchema, ContactRoute.ContactFormSchema, body.fields, isEmail);
    }
    ContactRoute.ServerSchemaIff(body, isEmail);
  }

  /** What the form sends once its own validation passed, the server accepts with a 200. */
  lemma ServerAcceptsWhatClientSends(values: map<string, Json>, isEmail: string -> bool)
    requires CheckObject(ContactFormSchema, JObject(values), isEmail) == []
    ensures var sent := JObject(Strip(values, ContactFormSchema));
      OutcomeOf(ContactRoute.Post(ContactRoute.Parsed(sent), isEmail)) == Responded(true)
  {
    var sent := Strip(values, ContactFormSchema);
    SameValuesSameIssues(ContactFormSchema, sent, values, isEmail);
    ClientAgreesWithServer(JObject(sent), isEmail);
  }

  /** A form reset to its defaults cannot be submitted again without new input. */
  lemma ResetFormIsIncomplete(preselectedIntent: Option<string>, isEmail: string -> bool)
    ensures CheckObject(ContactFormSchema, JObject(DefaultValues(preselectedIntent)), isEmail) != []
  {
    assert !Satisfies(ContactFormSchema[0], DefaultValues(preselectedIntent), isEmail);
  }

  /** The default products already satisfy the products rule exactly when an intent was preselected. */
  lemma DefaultProductsRule(preselectedIntent: Option<string>, isEmail: string -> bool)
    ensures Satisfies(ContactFormSchema[6], DefaultValues(preselectedIntent), isEmail)
      <==> preselectedIntent.Some? && preselectedIntent.value != ""
  {
  }

  class ContactForm {
    /** `defaultValues` given to the form hook at mount. */
    const defaultValues: map<string, Json>
    /** The values the form hook holds for the registered fields. */
    var values: map<string, Json>
    var isSubmitting: bool
    var submitStatus: SubmitStatus
    var submitMessage: string

    /** The status banner and its message always go together. */
    ghost predicate Valid()
      reads this
    {
      && (submitStatus == Idle <==> submitMessage == "")
      && (submitStatus == Success ==> submitMessage == ThankYouMessage)
      && (submitStatus == Error ==> submitMessage == ErrorMessage)
    }

    constructor (preselectedIntent: Option<string>)
      ensures Valid()
      ensures defaultValues == DefaultValues(preselectedIntent) && values == defaultValues
      ensures !isSubmitting && submitStatus == Idle && submitMessage == ""
    {
      defaultValues := DefaultValues(preselectedIntent);
      values := DefaultValues(preselectedIntent);
      isSubmitting := false;
      submitStatus := Idle;
      submitMessage := "";
    }

    /** The submit button's `disabled` attribute. */
    function SubmitDisabled(): (disabled: bool)
      reads this
      ensures disabled <==> isSubmitting
    {
      isSubmitting
    }

    /** The user changes one registered field. */
    method SetValue(key: string, value: Json)
      requires Valid()
      modifies this
      ensures Valid()
      ensures values == old(values)[key := value]
      ensures isSubmitting == old(isSubmitting) && submitStatus == old(submitStatus) && submitMessage == old(submitMessage)
    {
      values := values[key := value];
    }

    /** A click on the submit button: ignored while the button is disabled; blocked by the
        browser when it rejects the e-mail input; otherwise the form hook validates with the
        client schema and, when that passes, `onSubmit` marks the form as submitting and
        sends the parsed (stripped) data. */
    method Submit(isEmail: string -> bool, browserAcceptsEmail: string -> bool) returns (request: Option<Json>)
      requires Valid()
      modifies this
      ensures Valid()
      ensures request.Some? <==>
        && !old(SubmitDisabled())
        && BrowserAllowsSubmit(old(values), browserAcceptsEmail)
        && CheckObject(ContactFormSchema, JObject(old(values)), isEmail) == []
      ensures request.Some? ==> request.value == JObject(Strip(old(values), ContactFormSchema)) && SubmitDisabled()
      ensures request.None? ==> isSubmitting == old(isSubmitting)
      ensures values == old(values) && submitStatus == old(submitStatus) && submitMessage == old(submitMessage)
    {
      if SubmitDisabled() || !BrowserAllowsSubmit(values, browserAcceptsEmail) {
        return None;
      }
      match Parse(ContactFormSchema, JObject(values), isEmail)
      case Err(_) =>
        request := None;
      case Ok(data) =>
        isSubmitting := true;
        request := Some(data);
    }

    /** The request settles: an ok response shows the thank-you message and resets the
        values; a response that is not ok, or a thrown error, shows the retry message and
        keeps them. Either way the form is no longer submitting. */
    method Settle(outcome: FetchOutcome)
      requires Valid()
      modifies this
      ensures Valid() && !SubmitDisabled()
      ensures outcome == Responded(true) ==>
        submitStatus == Success && submitMessage == ThankYouMessage && values == defaultValues
      ensures outcome != Responded(true) ==>
        submitStatus == Error && submitMessage == ErrorMessage && values == old(values)
    {
      match outcome {
        case Responded(ok) =>
          if ok {
            submitStatus := Success;
            submitMessage := ThankYouMessage;
            values := defaultValues;
          } else {
            submitStatus := Error;
            submitMessage := ErrorMessage;
          }
        case Threw =>
          submitStatus := Error;
          submitMessage := ErrorMessage;
      }
      isSubmitting := false;
    }
  }
}
