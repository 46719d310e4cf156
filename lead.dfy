/**
  The lead submission: the one domain entity, a campaign's merchandise request.
  `SatisfiesLeadRules` states the rule set field by field, independently of how the
  schemas are written; each schema is proved to accept exactly these payloads.
 */
module Lead {
  import opened Wrappers
  import opened Zod

  datatype OfficeLevel = Local | State | Federal

  datatype Lead = Lead(
    fullName: string,
    committee: string,
    officeLevel: OfficeLevel,
    state: string,
    email: string,
    phone: Option<string>,
    products: seq<string>,
    quantities: string,
    timeline: string,
    paidForBy: string,
    notes: Option<string>,
    consent: bool)

  const OfficeLevelNames: seq<string> := ["Local", "State", "Federal"]

  /** The keys a payload must carry; `phone` and `notes` are the optional ones. */
  const RequiredKeys: set<string> :=
    {"fullName", "committee", "officeLevel", "state", "email", "products",
     "quantities", "timeline", "paidForBy", "consent"}

  predicate StringOfLength(fields: map<string, Json>, key: string, min: nat)
  {
    key in fields && fields[key].JString? && Utf16Length(fields[key].s) >= min
  }

  predicate AbsentOrString(fields: map<string, Json>, key: string)
  {
    key in fields ==> fields[key].JString?
  }

  predicate NonEmptyStringList(fields: map<string, Json>, key: string)
  {
    key in fields && fields[key].JArray? && |fields[key].items| >= 1
    && forall k | 0 <= k < |fields[key].items| :: fields[key].items[k].JString?
  }

  /** A payload is a valid lead: an object whose named fields have at least the stated
      lengths, a known office level, an address the e-mail check accepts, at least one
      product, consent given, and `phone`/`notes` absent or strings. */
  predicate SatisfiesLeadRules(body: Json, isEmail: string -> bool)
    ensures SatisfiesLeadRules(body, isEmail) ==> body.JObject? && RequiredKeys <= body.fields.Keys
  {
    body.JObject? &&
    var f := body.fields;
    && StringOfLength(f, "fullName", 2)
    && StringOfLength(f, "committee", 2)
    && "officeLevel" in f && f["officeLevel"] in {JString("Local"), JString("State"), JString("Federal")}
    && StringOfLength(f, "state", 2)
    && "email" in f && f["email"].JString? && isEmail(f["email"].s)
    && AbsentOrString(f, "phone")
    && NonEmptyStringList(f, "products")
    && StringOfLength(f, "quantities", 1)
    && StringOfLength(f, "timeline", 1)
    && StringOfLength(f, "paidForBy", 1)
    && AbsentOrString(f, "notes")
    && "consent" in f && f["consent"] == JBool(true)
  }

  function Strings(items: seq<Json>): (r: seq<string>)
    requires forall k | 0 <= k < |items| :: items[k].JString?
    ensures |r| == |items| && forall k | 0 <= k < |items| :: r[k] == items[k].s
  {
    if items == [] then [] else [items[0].s] + Strings(items[1..])
  }

  function ParseOfficeLevel(name: string): (level: OfficeLevel)
    requires name in OfficeLevelNames
    ensures level == Local <==> name == "Local"
    ensures level == State <==> name == "State"
    ensures level == Federal <==> name == "Federal"
  {
    if name == "Local" then Local else if name == "State" then State else Federal
  }

  /** The typed lead read off a payload that satisfies the rules. */
  function ToLead(body: Json, isEmail: string -> bool): (lead: Lead)
    requires SatisfiesLeadRules(body, isEmail)
    ensures lead.consent
    ensures isEmail(lead.email) && |lead.products| >= 1
    ensures Utf16Length(lead.fullName) >= 2 && Utf16Length(lead.committee) >= 2
    ensures Utf16Length(lead.state) >= 2
    ensures Utf16Length(lead.quantities) >= 1 && Utf16Length(lead.timeline) >= 1 && Utf16Length(lead.paidForBy) >= 1
  {
    var f := body.fields;
    Lead(
      f["fullName"].s, f["committee"].s, ParseOfficeLevel(f["officeLevel"].s), f["state"].s,
      f["email"].s, if "phone" in f then Some(f["phone"].s) else None,
      Strings(f["products"].items), f["quantities"].s, f["timeline"].s, f["paidForBy"].s,
      if "notes" in f then Some(f["notes"].s) else None, f["consent"].b)
  }
}
