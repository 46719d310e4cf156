/**
  The part of the zod schema library that the contact-form schemas use, as values:
  an object schema is the ordered list of its fields, each with one check and the
  custom message the schema attaches to it. `CheckObject` is `schema.parse` without
  the throw: the issues it would put into the ZodError, in zod's order.
  zod's own e-mail syntax check is not visible and is taken as a parameter `isEmail`.
 */
module Zod {
  import opened Wrappers

  /** A decoded JSON value (the result of `request.json()` or of the form's values). */
  datatype Json =
    | JNull
    | JBool(b: bool)
    | JNumber(n: real)
    | JString(s: string)
    | JArray(items: seq<Json>)
    | JObject(fields: map<string, Json>)

  datatype PathKey = Key(name: string) | Index(i: nat)

  /** zod issue codes, by meaning: wrong or missing type, too short, not an enum option,
      not an e-mail address, a failed `refine`. */
  datatype IssueCode = InvalidType | TooSmall | InvalidEnumValue | InvalidEmail | CustomCheck

  /** The message of an issue: one the schema supplies, or zod's built-in text (not modelled). */
  datatype Message = Custom(text: string) | BuiltIn

  datatype Issue = Issue(path: seq<PathKey>, code: IssueCode, message: Message)

  /** The field checks the two contact-form schemas use. */
  datatype Check =
    | StringMin(min: nat)           // z.string().min(n, msg)
    | StringEmail                   // z.string().email(msg)
    | Enum(options: seq<string>)    // z.enum(options) / z.enum(options, { message })
    | OptionalString                // z.string().optional()
    | StringArrayMin(min: nat)      // z.array(z.string()).min(n, msg)
    | TrueBoolean                   // z.boolean().refine(val => val === true, msg)

  datatype FieldRule = FieldRule(key: string, check: Check, message: Message)

  /** The length JavaScript reports for a string: UTF-16 code units, two for a character
      outside the Basic Multilingual Plane. */
  function Utf16Length(s: string): (n: nat)
    ensures |s| <= n <= 2 * |s|
  {
    if s == [] then 0 else (if s[0] as int > 0xFFFF then 2 else 1) + Utf16Length(s[1..])
  }

  function Lookup(fields: map<string, Json>, key: string): Option<Json>
  {
    if key in fields then Some(fields[key]) else None
  }

  predicate IsString(v: Option<Json>)
  {
    v.Some? && v.value.JString?
  }

  /** What a field rule demands of the value found under its key (absent = `undefined`). */
  predicate Satisfies(rule: FieldRule, fields: map<string, Json>, isEmail: string -> bool)
  {
    var v := Lookup(fields, rule.key);
    match rule.check
    case StringMin(n) => IsString(v) && Utf16Length(v.value.s) >= n
    case StringEmail => IsString(v) && isEmail(v.value.s)
    case Enum(options) => IsString(v) && v.value.s in options
    case OptionalString => v.None? || v.value.JString?
    case StringArrayMin(n) =>
      v.Some? && v.value.JArray? && |v.value.items| >= n
      && forall k | 0 <= k < |v.value.items| :: v.value.items[k].JString?
    case TrueBoolean => v == Some(JBool(true))
  }

  /** One `invalid_type` issue for every array element that is not a string, in index order;
      `first` is the index of `items[0]` in the whole array. */
  function ElementIssues(items: seq<Json>, key: string, first: nat): (issues: seq<Issue>)
    ensures issues == [] <==> forall k | 0 <= k < |items| :: items[k].JString?
    ensures forall k | 0 <= k < |issues| ::
      issues[k].code == InvalidType && |issues[k].path| == 2 && issues[k].path[0] == Key(key)
    decreases |items|
  {
    if items == [] then []
    else
      var head := if items[0].JString? then [] else [Issue([Key(key), Index(first)], InvalidType, BuiltIn)];
      var rest := ElementIssues(items[1..], key, first + 1);
      assert forall k | 1 <= k < |items| :: items[k] == items[1..][k - 1];
      head + rest
  }

  /** The issues one field of a `z.object` shape contributes, as zod's parsers produce them:
      a value of the wrong type stops that field's checks; the enum's message (when given)
      covers its type error too; an array's length check comes before its element errors. */
  function CheckField(rule: FieldRule, fields: map<string, Json>, isEmail: string -> bool): (issues: seq<Issue>)
    ensures issues == [] <==> Satisfies(rule, fields, isEmail)
    ensures forall k | 0 <= k < |issues| :: |issues[k].path| > 0 && issues[k].path[0] == Key(rule.key)
  {
    var v := Lookup(fields, rule.key);
    var at := [Key(rule.key)];
    match rule.check
    case StringMin(n) =>
      if !IsString(v) then [Issue(at, InvalidType, BuiltIn)]
      else if Utf16Length(v.value.s) < n then [Issue(at, TooSmall, rule.message)]
      else []
    case StringEmail =>
      if !IsString(v) then [Issue(at, InvalidType, BuiltIn)]
      else if !isEmail(v.value.s) then [Issue(at, InvalidEmail, rule.message)]
      else []
    case Enum(options) =>
      if !IsString(v) then [Issue(at, InvalidType, rule.message)]
      else if v.value.s !in options then [Issue(at, InvalidEnumValue, rule.message)]
      else []
    case OptionalString =>
      if v.None? || v.value.JString? then [] else [Issue(at, InvalidType, BuiltIn)]
    case StringArrayMin(n) =>
      if v.None? || !v.value.JArray? then [Issue(at, InvalidType, BuiltIn)]
      else
        (if |v.value.items| < n then [Issue(at, TooSmall, rule.message)] else [])
        + ElementIssues(v.value.items, rule.key, 0)
    case TrueBoolean =>
      if v.None? || !v.value.JBool? then [Issue(at, InvalidType, BuiltIn)]
      else if !v.value.b then [Issue(at, CustomCheck, rule.message)]
      else []
  }

  /** The fields of a shape checked in order; every field is checked, so every violation
      surfaces. No issue is reported exactly when every field rule holds. */
  function CheckFields(shape: seq<FieldRule>, fields: map<string, Json>, isEmail: string -> bool): (issues: seq<Issue>)
    ensures issues == [] <==> forall i | 0 <= i < |shape| :: Satisfies(shape[i], fields, isEmail)
    decreases |shape|
  {
    if shape == [] then []
    else
      assert forall i | 1 <= i < |shape| :: shape[i] == shape[1..][i - 1];
      CheckField(shape[0], fields, isEmail) + CheckFields(shape[1..], fields, isEmail)
  }

  /** `z.object(shape)` applied to a value: a non-object is one `invalid_type` issue at the root;
      an object passes exactly when every field rule holds. */
  function CheckObject(shape: seq<FieldRule>, body: Json, isEmail: string -> bool): (issues: seq<Issue>)
    ensures issues == [] <==> body.JObject? && forall i | 0 <= i < |shape| :: Satisfies(shape[i], body.fields, isEmail)
    ensures !body.JObject? ==> issues == [Issue([], InvalidType, BuiltIn)]
  {
    if body.JObject? then CheckFields(shape, body.fields, isEmail) else [Issue([], InvalidType, BuiltIn)]
  }

  function Keys(shape: seq<FieldRule>): set<string>
  {
    set i | 0 <= i < |shape| :: shape[i].key
  }

  /** zod's default `strip`: the parsed object keeps only the shape's keys that were present. */
  function Strip(fields: map<string, Json>, shape: seq<FieldRule>): (r: map<string, Json>)
    ensures r.Keys <= Keys(shape) && r.Keys <= fields.Keys
    ensures forall i | 0 <= i < |shape| :: Lookup(r, shape[i].key) == Lookup(fields, shape[i].key)
  {
    assert forall i | 0 <= i < |shape| :: shape[i].key in Keys(shape);
    map k | k in fields && k in Keys(shape) :: fields[k]
  }

  /** `schema.parse(body)`: the stripped data, or the issues of the ZodError it throws. */
  function Parse(shape: seq<FieldRule>, body: Json, isEmail: string -> bool): (r: Result<Json, seq<Issue>>)
    ensures r.Err? <==> CheckObject(shape, body, isEmail) != []
    ensures r.Err? ==> r.error == CheckObject(shape, body, isEmail)
    ensures r.Ok? ==> body.JObject? && r.value == JObject(Strip(body.fields, shape))
    ensures r.Ok? ==> CheckObject(shape, r.value, isEmail) == []
  {
    var issues := CheckObject(shape, body, isEmail);
    if issues != [] then Err(issues)
    else
      StripKeepsIssues(shape, body.fields, isEmail);
      Ok(JObject(Strip(body.fields, shape)))
  }

  /** Every issue of field `i` appears among the issues of the whole shape. */
  lemma {:induction false} FieldIssuesReported(shape: seq<FieldRule>, i: nat, fields: map<string, Json>, isEmail: string -> bool)
    requires i < |shape|
    ensures forall issue | issue in CheckField(shape[i], fields, isEmail) :: issue in CheckFields(shape, fields, isEmail)
    decreases |shape|
  {
    if i > 0 {
      FieldIssuesReported(shape[1..], i - 1, fields, isEmail);
    }
  }

  /** Every issue of a shape is about one of the shape's fields. */
  lemma {:induction false} IssuesAreAboutShapeFields(shape: seq<FieldRule>, fields: map<string, Json>, isEmail: string -> bool)
    ensures forall issue | issue in CheckFields(shape, fields, isEmail) ::
      |issue.path| > 0 && exists i | 0 <= i < |shape| :: issue.path[0] == Key(shape[i].key)
    decreases |shape|
  {
    if shape != [] {
      IssuesAreAboutShapeFields(shape[1..], fields, isEmail);
      var here := CheckField(shape[0], fields, isEmail);
      var rest := CheckFields(shape[1..], fields, isEmail);
      forall issue: Issue | issue in here + rest
        ensures |issue.path| > 0 && exists i | 0 <= i < |shape| :: issue.path[0] == Key(shape[i].key)
      {
        if issue in here {
          var k :| 0 <= k < |here| && here[k] == issue;
          assert issue.path[0] == Key(shape[0].key);
        } else {
          var j :| 0 <= j < |shape[1..]| && issue.path[0] == Key(shape[1..][j].key);
          assert shape[1..][j] == shape[j + 1];
        }
      }
    }
  }

  /** Two field maps that agree on the shape's keys get the same issues. */
  lemma {:induction false} SameValuesSameIssues(shape: seq<FieldRule>, f1: map<string, Json>, f2: map<string, Json>, isEmail: string -> bool)
    requires forall i | 0 <= i < |shape| :: Lookup(f1, shape[i].key) == Lookup(f2, shape[i].key)
    ensures CheckFields(shape, f1, isEmail) == CheckFields(shape, f2, isEmail)
    decreases |shape|
  {
    if shape != [] {
      assert Lookup(f1, shape[0].key) == Lookup(f2, shape[0].key);
      assert CheckField(shape[0], f1, isEmail) == CheckField(shape[0], f2, isEmail);
      SameValuesSameIssues(shape[1..], f1, f2, isEmail);
    }
  }

  /** Stripping unknown keys does not change the verdict on any shape that only uses known keys. */
  lemma StripKeepsIssues(shape: seq<FieldRule>, fields: map<string, Json>, isEmail: string -> bool)
    ensures CheckFields(shape, Strip(fields, shape), isEmail) == CheckFields(shape, fields, isEmail)
  {
    SameValuesSameIssues(shape, Strip(fields, shape), fields, isEmail);
  }

  /** Two issue lists with the same paths and codes, in the same order (messages may differ). */
  predicate SameIssueShape(a: seq<Issue>, b: seq<Issue>)
  {
    |a| == |b| && forall k | 0 <= k < |a| :: a[k].path == b[k].path && a[k].code == b[k].code
  }

  /** Two shapes with the same keys and checks in the same order, whatever their messages,
      report issues at the same paths with the same codes: the same verdict on every input. */
  lemma {:induction false} SameChecksSameIssueShape(s1: seq<FieldRule>, s2: seq<FieldRule>, fields: map<string, Json>, isEmail: string -> bool)
    requires |s1| == |s2|
    requires forall i | 0 <= i < |s1| :: s1[i].key == s2[i].key && s1[i].check == s2[i].check
    ensures SameIssueShape(CheckFields(s1, fields, isEmail), CheckFields(s2, fields, isEmail))
    decreases |s1|
  {
    if s1 != [] {
      var h1, h2 := CheckField(s1[0], fields, isEmail), CheckField(s2[0], fields, isEmail);
      assert s1[0].key == s2[0].key && s1[0].check == s2[0].check;
      assert SameIssueShape(h1, h2);
      assert forall i | 0 <= i < |s1[1..]| :: s1[1..][i] == s1[i + 1] && s2[1..][i] == s2[i + 1];
      SameChecksSameIssueShape(s1[1..], s2[1..], fields, isEmail);
      SameIssueShapeConcat(h1, CheckFields(s1[1..], fields, isEmail), h2, CheckFields(s2[1..], fields, isEmail));
    }
  }

  /** Issue lists alike piece by piece are alike when joined. */
  lemma SameIssueShapeConcat(a1: seq<Issue>, b1: seq<Issue>, a2: seq<Issue>, b2: seq<Issue>)
    requires SameIssueShape(a1, a2) && SameIssueShape(b1, b2)
    ensures SameIssueShape(a1 + b1, a2 + b2)
  {
    forall k | 0 <= k < |a1 + b1|
      ensures (a1 + b1)[k].path == (a2 + b2)[k].path && (a1 + b1)[k].code == (a2 + b2)[k].code
    {
      if k >= |a1| {
        assert (a1 + b1)[k] == b1[k - |a1|] && (a2 + b2)[k] == b2[k - |a2|];
      }
    }
  }
}
