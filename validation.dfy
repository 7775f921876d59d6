/**
 * The buyer schemas of app/utils/validation.ts: `buyerSchema` (JSON bodies,
 * also exported as `createBuyerSchema`) and `csvBuyerSchema` (CSV rows), with
 * zod 3's way of running them.
 *
 * zod 3 gives every field one of three outcomes. A failed type or enum test
 * ABORTS the field. A failed `.min`, `.max`, `.regex`, `.email`, `.int` or
 * `.refine` check only makes it DIRTY: the issue is recorded and the value is
 * kept. The object collects the issues of all its fields in declaration order
 * (not fail-fast); it aborts when any field aborted, and otherwise its two
 * chained `.refine` rules both run, on the possibly dirty values, each adding
 * its issue after the field issues.
 */
module Validation {
  import opened Wrappers
  import opened Text
  import opened JsValues
  import EmailSyntax

  /** The top-level fields of a buyer record. */
  datatype Key =
    | FullName | Email | Phone | City | PropertyType | Bhk | Purpose
    | BudgetMin | BudgetMax | Timeline | Source | Status | Notes | Tags

  /** The property name a field has in a JSON body, a form and a CSV header. */
  function Name(k: Key): string {
    match k
    case FullName => "fullName"
    case Email => "email"
    case Phone => "phone"
    case City => "city"
    case PropertyType => "propertyType"
    case Bhk => "bhk"
    case Purpose => "purpose"
    case BudgetMin => "budgetMin"
    case BudgetMax => "budgetMax"
    case Timeline => "timeline"
    case Source => "source"
    case Status => "status"
    case Notes => "notes"
    case Tags => "tags"
  }

  /**
   * The fields of a record the schemas look at, each `Undefined` when the
   * record does not have it; properties with other names are not looked at.
   */
  datatype Input = Input(
    fullName: Json, email: Json, phone: Json, city: Json, propertyType: Json,
    bhk: Json, purpose: Json, budgetMin: Json, budgetMax: Json, timeline: Json,
    source: Json, status: Json, notes: Json, tags: Json)

  /** The schema's view of a JSON body or form record: its properties under the field names. */
  function FromObject(body: Raw): Input {
    Input(Get(body, "fullName"), Get(body, "email"), Get(body, "phone"), Get(body, "city"),
      Get(body, "propertyType"), Get(body, "bhk"), Get(body, "purpose"), Get(body, "budgetMin"),
      Get(body, "budgetMax"), Get(body, "timeline"), Get(body, "source"), Get(body, "status"),
      Get(body, "notes"), Get(body, "tags"))
  }

  /** One zod issue: the top-level field it is attached to and its message. */
  datatype Issue = Issue(path: Key, message: Message)

  /** The outcome of one field schema. */
  datatype Field<+T> = Ok(value: T) | Dirty(value: T, messages: seq<Message>) | Aborted(messages: seq<Message>)
  {
    /** The field produced a value (possibly with issues). */
    predicate Live() {
      !Aborted?
    }

    function Messages(): seq<Message> {
      if Ok? then [] else messages
    }

    /** A dirty or aborted field carries at least one issue. */
    predicate WellFormed() {
      Ok? || |messages| > 0
    }
  }

  // ---------------------------------------------------------------- enums

  const Cities: seq<string> := ["Chandigarh", "Mohali", "Zirakpur", "Panchkula", "Other"]
  const PropertyTypes: seq<string> := ["Apartment", "Villa", "Plot", "Office", "Retail"]
  const BhkValues: seq<string> := ["1", "2", "3", "4", "Studio"]
  const Purposes: seq<string> := ["Buy", "Rent"]
  const Timelines: seq<string> := ["0-3m", "3-6m", ">6m", "Exploring"]
  const Sources: seq<string> := ["Website", "Referral", "Walk-in", "Call", "Other"]
  const Statuses: seq<string> := ["New", "Qualified", "Contacted", "Visited", "Negotiation", "Converted", "Dropped"]

  /** The property types for which a BHK value is required. */
  const Residential: seq<string> := ["Apartment", "Villa"]

  // ------------------------------------------------------------- messages

  /** What an `invalid_type` issue says was expected. */
  datatype Expected = AString | ANumber | AnArray | OneOfValues(options: seq<string>)

  /**
   * The message of an issue, by what it reports; `Wording` gives its text.
   * The first group carries the schemas' own messages, the rest zod's defaults.
   */
  datatype Message =
    | FullNameTooShort | FullNameTooLong | EmailInvalid
    | PhoneTooShort | PhoneTooLong | PhoneNotDigits | PhoneBadFormat
    | BudgetNotWhole | BudgetNegative | NotesTooLong
    | BhkRequired | BudgetOrder
    | TooSmall(minimum: nat)
    | TooBig(maximum: nat)
    | InvalidEmail
    | InvalidUnion
    | InvalidType(expected: Expected, received: string)
    | InvalidEnumValue(options: seq<string>, received: string)

  function Quoted(values: seq<string>): (r: seq<string>)
    ensures |r| == |values|
  {
    if |values| == 0 then [] else ["'" + values[0] + "'"] + Quoted(values[1..])
  }

  function ExpectedText(e: Expected): string {
    match e
    case AString => "string"
    case ANumber => "number"
    case AnArray => "array"
    case OneOfValues(options) => Join(Quoted(options), " | ")
  }

  /** The wording of a message; a missing value is reported as "Required". */
  function Wording(m: Message): string {
    match m
    case FullNameTooShort => "Full name must be at least 2 characters"
    case FullNameTooLong => "Full name cannot exceed 80 characters"
    case EmailInvalid => "Invalid email format"
    case PhoneTooShort => "Phone number must be at least 10 digits"
    case PhoneTooLong => "Phone number must not exceed 15 digits"
    case PhoneNotDigits => "Phone number must contain only digits"
    case PhoneBadFormat => "Invalid phone number format"
    case BudgetNotWhole => "Budget must be a whole number"
    case BudgetNegative => "Budget cannot be negative"
    case NotesTooLong => "Notes cannot exceed 1000 characters"
    case BhkRequired => "BHK is required for Apartment and Villa properties"
    case BudgetOrder => "Maximum budget must be greater than or equal to minimum budget"
    case TooSmall(n) => "String must contain at least " + DecimalString(n) + " character(s)"
    case TooBig(n) => "String must contain at most " + DecimalString(n) + " character(s)"
    case InvalidEmail => "Invalid email"
    case InvalidUnion => "Invalid input"
    case InvalidType(e, received) =>
      if received == "undefined" then "Required" else "Expected " + ExpectedText(e) + ", received " + received
    case InvalidEnumValue(options, received) =>
      "Invalid enum value. Expected " + Join(Quoted(options), " | ") + ", received '" + received + "'"
  }

  /** `invalid_type` for the value `v`. */
  function TypeIssue(expected: Expected, v: Json): Message {
    InvalidType(expected, TypeName(v))
  }

  // ---------------------------------------- what each field accepts (reference)

  predicate NameAccepted(v: Json) {
    v.Str? && 2 <= |Trim(v.s)| <= 80
  }

  predicate EmailAccepted(v: Json) {
    v.Undefined? || (v.Str? && (v.s == "" || EmailSyntax.IsEmail(v.s)))
  }

  predicate PhoneAccepted(v: Json) {
    v.Str? && 10 <= |v.s| <= 15 && AllDigits(v.s)
  }

  predicate OneOf(values: seq<string>, v: Json) {
    v.Str? && v.s in values
  }

  predicate OptionalOneOf(values: seq<string>, v: Json) {
    v.Undefined? || OneOf(values, v)
  }

  predicate CsvBhkAccepted(v: Json) {
    v.Undefined? || v == Str("") || OneOf(BhkValues, v)
  }

  predicate BudgetAccepted(v: Json) {
    v.Undefined? || (v.Num? && IsInteger(v.r) && v.r >= 0.0)
  }

  predicate NotesAccepted(v: Json) {
    v.Undefined? || (v.Str? && |v.s| <= 1000)
  }

  predicate TagsAccepted(v: Json) {
    v.Undefined? || (v.List? && NonBlankStrings(v.items))
  }

  predicate AbsentOrString(v: Json) {
    v.Undefined? || v.Str?
  }

  predicate StringList(v: Json) {
    v.List? && AllStrings(v.items)
  }

  /** The text a field holds, if it holds one. */
  function OptStr(v: Json): Option<string> {
    if v.Str? then Some(v.s) else None
  }

  // ------------------------------------------------------ field schemas
  //
  // Each field schema is a function giving the field's outcome; its contract
  // says when a value comes out and which value. A lemma beside it says that
  // the schema accepts exactly what the reference predicate above describes.

  /** `z.string().trim().min(2, m2).max(80, m80)`. */
  function NameField(v: Json, tooShort: Message, tooLong: Message): (f: Field<string>)
    ensures f.WellFormed()
    ensures f.Live() <==> v.Str?
    ensures f.Live() ==> f.value == Trim(v.s)
  {
    match v
    case Str(s) =>
      var t := Trim(s);
      var msgs := (if |t| < 2 then [tooShort] else []) + (if |t| > 80 then [tooLong] else []);
      if |msgs| == 0 then Ok(t) else Dirty(t, msgs)
    case _ => Aborted([TypeIssue(AString, v)])
  }

  lemma NameFieldAccepts(v: Json, tooShort: Message, tooLong: Message)
    ensures NameField(v, tooShort, tooLong).Ok? <==> NameAccepted(v)
  {
  }

  /**
   * `phoneSchema`: length 10..15, the pattern `^\d+$`, then a refinement that
   * counts the digits of the string; a dirty value still reaches the refinement.
   */
  function PhoneField(v: Json): (f: Field<string>)
    ensures f.WellFormed()
    ensures f.Live() <==> v.Str?
    ensures f.Live() ==> f.value == v.s
  {
    match v
    case Str(s) =>
      var checks := (if |s| < 10 then [PhoneTooShort] else [])
        + (if |s| > 15 then [PhoneTooLong] else [])
        + (if !(|s| > 0 && AllDigits(s)) then [PhoneNotDigits] else []);
      var cleaned := DigitsOnly(s);
      var msgs := checks + (if 10 <= |cleaned| <= 15 then [] else [PhoneBadFormat]);
      if |msgs| == 0 then Ok(s) else Dirty(s, msgs)
    case _ => Aborted([TypeIssue(AString, v)])
  }

  /** The digit-count refinement never rejects what the length and pattern checks let through. */
  lemma PhoneFieldAccepts(v: Json)
    ensures PhoneField(v).Ok? <==> PhoneAccepted(v)
  {
  }

  /** `z.string().email(m).optional().or(z.literal(''))`. */
  function EmailField(v: Json, invalid: Message): (f: Field<Option<string>>)
    ensures f.WellFormed()
    ensures f.Live() <==> AbsentOrString(v)
    ensures f.Live() ==> f.value == OptStr(v)
  {
    match v
    case Undefined => Ok(None)
    case Str(s) => if s == "" || EmailSyntax.IsEmail(s) then Ok(Some(s)) else Dirty(Some(s), [invalid])
    case _ => Aborted([InvalidUnion])
  }

  lemma EmailFieldAccepts(v: Json, invalid: Message)
    ensures EmailField(v, invalid).Ok? <==> EmailAccepted(v)
  {
  }

  /** `z.string().max(1000, m).optional().or(z.literal(''))`. */
  function NotesField(v: Json, tooLong: Message): (f: Field<Option<string>>)
    ensures f.WellFormed()
    ensures f.Live() <==> AbsentOrString(v)
    ensures f.Live() ==> f.value == OptStr(v)
  {
    match v
    case Undefined => Ok(None)
    case Str(s) => if |s| <= 1000 then Ok(Some(s)) else Dirty(Some(s), [tooLong])
    case _ => Aborted([InvalidUnion])
  }

  lemma NotesFieldAccepts(v: Json, tooLong: Message)
    ensures NotesField(v, tooLong).Ok? <==> NotesAccepted(v)
  {
  }

  /** `z.enum(values)`: case-sensitive membership; there is no dirty outcome. */
  function EnumField(values: seq<string>, v: Json): (f: Field<string>)
    ensures f.WellFormed()
    ensures f.Live() <==> f.Ok?
    ensures f.Ok? <==> OneOf(values, v)
    ensures f.Ok? ==> f.value == v.s
  {
    match v
    case Str(s) => if s in values then Ok(s) else Aborted([InvalidEnumValue(values, s)])
    case _ => Aborted([TypeIssue(OneOfValues(values), v)])
  }

  /** `z.enum(values).optional()`. */
  function OptionalEnumField(values: seq<string>, v: Json): (f: Field<Option<string>>)
    ensures f.WellFormed()
    ensures f.Live() <==> f.Ok?
    ensures f.Ok? <==> OptionalOneOf(values, v)
    ensures f.Ok? ==> f.value == OptStr(v)
  {
    if v.Undefined? then Ok(None)
    else
      var e := EnumField(values, v);
      if e.Ok? then Ok(Some(e.value)) else Aborted(e.messages)
  }

  /** `bhkSchema.optional().or(z.literal(''))`: neither option matching is one `invalid_union` issue. */
  function CsvBhkField(v: Json): (f: Field<Option<string>>)
    ensures f.WellFormed()
    ensures f.Live() <==> f.Ok?
    ensures f.Ok? <==> CsvBhkAccepted(v)
    ensures f.Ok? ==> f.value == OptStr(v)
  {
    if OptionalOneOf(BhkValues, v) then OptionalEnumField(BhkValues, v)
    else if v == Str("") then Ok(Some(""))
    else Aborted([InvalidUnion])
  }

  /** `statusSchema.default('New')`: only a missing value takes the default. */
  function StatusField(v: Json): (f: Field<string>)
    ensures f.WellFormed()
    ensures f.Live() <==> f.Ok?
    ensures f.Ok? <==> OptionalOneOf(Statuses, v)
    ensures f.Ok? ==> f.value == if v.Undefined? then "New" else v.s
  {
    if v.Undefined? then Ok("New") else EnumField(Statuses, v)
  }

  /** `budgetSchema`: `z.number().int(m).min(0, m').optional()`; `NaN` is not a number to zod. */
  function BudgetField(v: Json): (f: Field<Option<real>>)
    ensures f.WellFormed()
    ensures f.Live() <==> v.Undefined? || v.Num?
    ensures f.Live() ==> f.value == if v.Undefined? then None else Some(v.r)
  {
    match v
    case Undefined => Ok(None)
    case Num(r) =>
      var msgs := (if !IsInteger(r) then [BudgetNotWhole] else []) + (if r < 0.0 then [BudgetNegative] else []);
      if |msgs| == 0 then Ok(Some(r)) else Dirty(Some(r), msgs)
    case _ => Aborted([TypeIssue(ANumber, v)])
  }

  lemma BudgetFieldAccepts(v: Json)
    ensures BudgetField(v).Ok? <==> BudgetAccepted(v)
  {
  }

  /** The CSV budget transform: empty or non-numeric becomes absent, otherwise `parseInt`. */
  function CsvBudget(s: string): Option<int> {
    if s == "" then None else ParseInt(s, true)
  }

  /** `z.string().transform(...).optional()` for a CSV budget cell. */
  function CsvBudgetField(v: Json): (f: Field<Option<int>>)
    ensures f.WellFormed()
    ensures f.Live() <==> f.Ok?
    ensures f.Ok? <==> AbsentOrString(v)
    ensures f.Ok? ==> f.value == if v.Str? then CsvBudget(v.s) else None
  {
    match v
    case Undefined => Ok(None)
    case Str(s) => Ok(CsvBudget(s))
    case _ => Aborted([TypeIssue(AString, v)])
  }

  /** One element of `z.array(z.string().trim().min(1))`. */
  function TagItem(v: Json): (f: Field<string>)
    ensures f.WellFormed()
    ensures f.Live() <==> v.Str?
    ensures f.Ok? <==> v.Str? && Trim(v.s) != ""
    ensures f.Live() ==> f.value == Trim(v.s)
  {
    match v
    case Str(s) => if Trim(s) == "" then Dirty("", [TooSmall(1)]) else Ok(Trim(s))
    case _ => Aborted([TypeIssue(AString, v)])
  }

  /** Every element is a string. */
  predicate AllStrings(items: seq<Json>) {
    forall i :: 0 <= i < |items| ==> items[i].Str?
  }

  /** The elements, each trimmed. */
  function TrimmedItems(items: seq<Json>): (r: seq<string>)
    requires AllStrings(items)
    ensures |r| == |items|
    ensures forall i :: 0 <= i < |items| ==> r[i] == Trim(items[i].s)
  {
    if |items| == 0 then []
    else
      var rest := items[1..];
      assert forall i :: 1 <= i < |items| ==> items[i] == rest[i - 1];
      [Trim(items[0].s)] + TrimmedItems(rest)
  }

  /** Element outcomes combined as zod combines an array's: every element's issues, aborted if one aborted. */
  function TagItems(items: seq<Json>): (f: Field<seq<string>>)
    ensures f.WellFormed()
    ensures f.Live() <==> AllStrings(items)
    ensures f.Live() ==> f.value == TrimmedItems(items)
  {
    if |items| == 0 then Ok([])
    else
      var head := TagItem(items[0]);
      var rest := items[1..];
      var tail := TagItems(rest);
      assert AllStrings(items) <==> items[0].Str? && AllStrings(rest) by {
        assert forall i :: 1 <= i < |items| ==> items[i] == rest[i - 1];
      }
      var msgs := head.Messages() + tail.Messages();
      if head.Aborted? || tail.Aborted? then Aborted(msgs)
      else if |msgs| == 0 then Ok([head.value] + tail.value)
      else Dirty([head.value] + tail.value, msgs)
  }

  /** Every element is a string that is not blank once trimmed. */
  predicate NonBlankStrings(items: seq<Json>) {
    forall i :: 0 <= i < |items| ==> items[i].Str? && Trim(items[i].s) != ""
  }

  lemma NonBlankStringsCons(items: seq<Json>)
    requires |items| > 0
    ensures NonBlankStrings(items) <==> (items[0].Str? && Trim(items[0].s) != "") && NonBlankStrings(items[1..])
  {
    var rest := items[1..];
    assert forall i :: 1 <= i < |items| ==> items[i] == rest[i - 1];
  }

  /** The array is accepted exactly when every element is a string that is not blank. */
  lemma {:induction false} TagItemsAccepts(items: seq<Json>)
    ensures TagItems(items).Ok? <==> NonBlankStrings(items)
  {
    if |items| > 0 {
      var head := TagItem(items[0]);
      var tail := TagItems(items[1..]);
      assert TagItems(items).Ok? <==> head.Ok? && tail.Ok? by {
        CleanIffOk(head);
        CleanIffOk(tail);
      }
      TagItemsAccepts(items[1..]);
      NonBlankStringsCons(items);
    }
  }

  /** `tagsSchema`: an array of trimmed non-empty strings, `[]` when missing. */
  function TagsField(v: Json): (f: Field<seq<string>>)
    ensures f.WellFormed()
    ensures f.Live() <==> v.Undefined? || StringList(v)
    ensures f.Live() ==> f.value == if v.List? then TrimmedItems(v.items) else []
  {
    match v
    case Undefined => Ok([])
    case List(items) => TagItems(items)
    case _ => Aborted([TypeIssue(AnArray, v)])
  }

  lemma TagsFieldAccepts(v: Json)
    ensures TagsField(v).Ok? <==> TagsAccepted(v)
  {
    if v.List? {
      TagItemsAccepts(v.items);
    }
  }

  /** The CSV tags transform: `""` gives `[]`, otherwise the comma-split tag expression. */
  function CsvTags(s: string): seq<string> {
    if s == "" then [] else SplitTags(s)
  }

  /** `z.string().transform(...).optional().or(z.literal(''))` for the CSV tags cell. */
  function CsvTagsField(v: Json): (f: Field<Option<seq<string>>>)
    ensures f.WellFormed()
    ensures f.Live() <==> f.Ok?
    ensures f.Ok? <==> AbsentOrString(v)
    ensures f.Ok? ==> f.value == if v.Str? then Some(CsvTags(v.s)) else None
  {
    match v
    case Undefined => Ok(None)
    case Str(s) => Ok(Some(CsvTags(s)))
    case _ => Aborted([InvalidUnion])
  }

  // ------------------------------------------------------------ objects

  /** The two object schemas. */
  datatype Schema = BuyerSchema | CsvSchema

  /** Messages attached to one top-level field. */
  function Attach(path: Key, msgs: seq<Message>): (r: seq<Issue>)
    ensures |r| == |msgs|
  {
    if |msgs| == 0 then [] else [Issue(path, msgs[0])] + Attach(path, msgs[1..])
  }

  /** The `i`-th attached issue carries the `i`-th message under `path`. */
  lemma {:induction false} AttachAt(path: Key, msgs: seq<Message>, i: nat)
    requires i < |msgs|
    ensures Attach(path, msgs)[i] == Issue(path, msgs[i])
  {
    if i > 0 {
      AttachAt(path, msgs[1..], i - 1);
    }
  }

  /** Some issue of `issues` is attached to field `k`. */
  predicate HasIssue(issues: seq<Issue>, k: Key) {
    exists i :: 0 <= i < |issues| && issues[i].path == k
  }

  /** The messages of `issues` attached to field `k`, in order. */
  function MessagesFor(issues: seq<Issue>, k: Key): (r: seq<Message>)
    ensures |r| > 0 <==> HasIssue(issues, k)
  {
    if |issues| == 0 then []
    else
      var rest := MessagesFor(issues[1..], k);
      assert HasIssue(issues, k) <==> issues[0].path == k || HasIssue(issues[1..], k) by {
        if HasIssue(issues, k) && issues[0].path != k {
          var i :| 0 <= i < |issues| && issues[i].path == k;
          assert issues[1..][i - 1] == issues[i];
        }
        if HasIssue(issues[1..], k) {
          var i :| 0 <= i < |issues[1..]| && issues[1..][i].path == k;
          assert issues[i + 1] == issues[1..][i];
        }
      }
      if issues[0].path == k then [issues[0].message] + rest else rest
  }

  /** The fields some issue is attached to. */
  function Paths(issues: seq<Issue>): (r: set<Key>)
    ensures forall k :: k in r <==> HasIssue(issues, k)
  {
    set i | 0 <= i < |issues| :: issues[i].path
  }

  /** `error.flatten().fieldErrors`: for every field with an issue, its messages. */
  function FieldErrors(issues: seq<Issue>): (m: map<Key, seq<Message>>)
    ensures m.Keys == Paths(issues)
    ensures forall k :: k in m ==> |m[k]| > 0 && m[k] == MessagesFor(issues, k)
  {
    map k | k in Paths(issues) :: MessagesFor(issues, k)
  }

  /** What each field must hold for its schema to accept it. */
  predicate FieldsAccepted(schema: Schema, raw: Input) {
    var buyer := schema.BuyerSchema?;
    && NameAccepted(raw.fullName)
    && EmailAccepted(raw.email)
    && PhoneAccepted(raw.phone)
    && OneOf(Cities, raw.city)
    && OneOf(PropertyTypes, raw.propertyType)
    && (if buyer then OptionalOneOf(BhkValues, raw.bhk) else CsvBhkAccepted(raw.bhk))
    && OneOf(Purposes, raw.purpose)
    && (if buyer then BudgetAccepted(raw.budgetMin) else AbsentOrString(raw.budgetMin))
    && (if buyer then BudgetAccepted(raw.budgetMax) else AbsentOrString(raw.budgetMax))
    && OneOf(Timelines, raw.timeline)
    && OneOf(Sources, raw.source)
    && OptionalOneOf(Statuses, raw.status)
    && NotesAccepted(raw.notes)
    && (if buyer then TagsAccepted(raw.tags) else AbsentOrString(raw.tags))
  }

  /** What each field must hold for its schema not to abort (a value comes out, perhaps with issues). */
  predicate FieldsShaped(schema: Schema, raw: Input) {
    var buyer := schema.BuyerSchema?;
    && raw.fullName.Str?
    && AbsentOrString(raw.email)
    && raw.phone.Str?
    && OneOf(Cities, raw.city)
    && OneOf(PropertyTypes, raw.propertyType)
    && (if buyer then OptionalOneOf(BhkValues, raw.bhk) else CsvBhkAccepted(raw.bhk))
    && OneOf(Purposes, raw.purpose)
    && (if buyer then raw.budgetMin.Undefined? || raw.budgetMin.Num? else AbsentOrString(raw.budgetMin))
    && (if buyer then raw.budgetMax.Undefined? || raw.budgetMax.Num? else AbsentOrString(raw.budgetMax))
    && OneOf(Timelines, raw.timeline)
    && OneOf(Sources, raw.source)
    && OptionalOneOf(Statuses, raw.status)
    && AbsentOrString(raw.notes)
    && (if buyer then raw.tags.Undefined? || StringList(raw.tags) else AbsentOrString(raw.tags))
  }

  /** The BHK value counts as missing: absent, or (CSV) the empty string. */
  predicate BhkMissing(schema: Schema, v: Json) {
    v.Undefined? || (schema.CsvSchema? && v == Str(""))
  }

  /** The budget a field holds, as the refinement sees it. */
  function BudgetValue(schema: Schema, v: Json): Option<real> {
    if schema.BuyerSchema? then (if v.Num? then Some(v.r) else None)
    else if v.Str? then (match CsvBudget(v.s) case Some(n) => Some(n as real) case None => None)
    else None
  }

  /** Refinement A: BHK given when the property type is residential. */
  predicate BhkRuleHolds(schema: Schema, raw: Input) {
    OneOf(Residential, raw.propertyType) ==> !BhkMissing(schema, raw.bhk)
  }

  /** Refinement B: when both budgets are present, the maximum is not below the minimum. */
  predicate BudgetRuleHolds(schema: Schema, raw: Input) {
    var lo := BudgetValue(schema, raw.budgetMin);
    var hi := BudgetValue(schema, raw.budgetMax);
    lo.Some? && hi.Some? ==> hi.value >= lo.value
  }

  /** The record passes the schema: every field and both refinements. */
  predicate Accepted(schema: Schema, raw: Input) {
    FieldsAccepted(schema, raw) && BhkRuleHolds(schema, raw) && BudgetRuleHolds(schema, raw)
  }

  /** The issues of the two refinements, in order. */
  function RefineIssues(schema: Schema, raw: Input): (r: seq<Issue>)
    ensures |r| == 0 <==> BhkRuleHolds(schema, raw) && BudgetRuleHolds(schema, raw)
    ensures HasIssue(r, Bhk) <==> !BhkRuleHolds(schema, raw)
    ensures HasIssue(r, BudgetMax) <==> !BudgetRuleHolds(schema, raw)
    ensures forall k :: k != Bhk && k != BudgetMax ==> !HasIssue(r, k)
    ensures MessagesFor(r, Bhk) == if BhkRuleHolds(schema, raw) then [] else [BhkRequired]
    ensures MessagesFor(r, BudgetMax) == if BudgetRuleHolds(schema, raw) then [] else [BudgetOrder]
  {
    var a := if BhkRuleHolds(schema, raw) then [] else [Issue(Bhk, BhkRequired)];
    var b := if BudgetRuleHolds(schema, raw) then [] else [Issue(BudgetMax, BudgetOrder)];
    assert forall i :: 0 <= i < |a + b| ==> (a + b)[i] == if i < |a| then a[i] else b[i - |a|];
    assert |a| > 0 ==> (a + b)[0] == a[0];
    assert |b| > 0 ==> (a + b)[|a|] == b[0];
    a + b
  }

  /** What one field contributes to the object: whether a value came out, and its issues. */
  datatype Report = Report(live: bool, messages: seq<Message>)

  function Summary<T>(f: Field<T>): (r: Report)
    requires f.WellFormed()
    ensures r.live <==> f.Live()
    ensures |r.messages| == 0 <==> f.Ok?
  {
    Report(f.Live(), f.Messages())
  }

  /** The outcome of field `k` under `buyerSchema`. */
  function BuyerReport(raw: Input, k: Key): Report {
    match k
    case FullName => Summary(NameField(raw.fullName, FullNameTooShort, FullNameTooLong))
    case Email => Summary(EmailField(raw.email, EmailInvalid))
    case Phone => Summary(PhoneField(raw.phone))
    case City => Summary(EnumField(Cities, raw.city))
    case PropertyType => Summary(EnumField(PropertyTypes, raw.propertyType))
    case Bhk => Summary(OptionalEnumField(BhkValues, raw.bhk))
    case Purpose => Summary(EnumField(Purposes, raw.purpose))
    case BudgetMin => Summary(BudgetField(raw.budgetMin))
    case BudgetMax => Summary(BudgetField(raw.budgetMax))
    case Timeline => Summary(EnumField(Timelines, raw.timeline))
    case Source => Summary(EnumField(Sources, raw.source))
    case Status => Summary(StatusField(raw.status))
    case Notes => Summary(NotesField(raw.notes, NotesTooLong))
    case Tags => Summary(TagsField(raw.tags))
  }

  /** The outcome of field `k` under `csvBuyerSchema`. */
  function CsvReport(raw: Input, k: Key): Report {
    match k
    case FullName => Summary(NameField(raw.fullName, TooSmall(2), TooBig(80)))
    case Email => Summary(EmailField(raw.email, InvalidEmail))
    case Phone => Summary(PhoneField(raw.phone))
    case City => Summary(EnumField(Cities, raw.city))
    case PropertyType => Summary(EnumField(PropertyTypes, raw.propertyType))
    case Bhk => Summary(CsvBhkField(raw.bhk))
    case Purpose => Summary(EnumField(Purposes, raw.purpose))
    case BudgetMin => Summary(CsvBudgetField(raw.budgetMin))
    case BudgetMax => Summary(CsvBudgetField(raw.budgetMax))
    case Timeline => Summary(EnumField(Timelines, raw.timeline))
    case Source => Summary(EnumField(Sources, raw.source))
    case Status => Summary(StatusField(raw.status))
    case Notes => Summary(NotesField(raw.notes, TooBig(1000)))
    case Tags => Summary(CsvTagsField(raw.tags))
  }

  function FieldReport(schema: Schema, raw: Input, k: Key): Report {
    if schema.BuyerSchema? then BuyerReport(raw, k) else CsvReport(raw, k)
  }

  /** The order in which a schema declares its fields (`status` moves to the end in the CSV schema). */
  function Order(schema: Schema): (keys: seq<Key>)
    ensures |keys| == 14
  {
    if schema.BuyerSchema? then
      [FullName, Email, Phone, City, PropertyType, Bhk, Purpose, BudgetMin, BudgetMax,
       Timeline, Source, Status, Notes, Tags]
    else
      [FullName, Email, Phone, City, PropertyType, Bhk, Purpose, BudgetMin, BudgetMax,
       Timeline, Source, Notes, Tags, Status]
  }

  /** No key appears twice. */
  predicate Distinct(keys: seq<Key>) {
    forall i, j :: 0 <= i < j < |keys| ==> keys[i] != keys[j]
  }

  /** Where the schema declares field `k`. */
  function Position(schema: Schema, k: Key): (i: nat)
    ensures i < |Order(schema)| && Order(schema)[i] == k
  {
    var buyer := schema.BuyerSchema?;
    match k
    case FullName => 0
    case Email => 1
    case Phone => 2
    case City => 3
    case PropertyType => 4
    case Bhk => 5
    case Purpose => 6
    case BudgetMin => 7
    case BudgetMax => 8
    case Timeline => 9
    case Source => 10
    case Status => if buyer then 11 else 13
    case Notes => if buyer then 12 else 11
    case Tags => if buyer then 13 else 12
  }

  /** Every field is declared, once. */
  lemma OrderComplete(schema: Schema)
    ensures forall k :: k in Order(schema)
    ensures Distinct(Order(schema))
  {
    var keys := Order(schema);
    forall k ensures k in keys {
      assert keys[Position(schema, k)] == k;
    }
    forall i | 0 <= i < |keys| ensures Position(schema, keys[i]) == i {
      if schema.BuyerSchema? {
        assert keys == [FullName, Email, Phone, City, PropertyType, Bhk, Purpose, BudgetMin, BudgetMax,
          Timeline, Source, Status, Notes, Tags];
      } else {
        assert keys == [FullName, Email, Phone, City, PropertyType, Bhk, Purpose, BudgetMin, BudgetMax,
          Timeline, Source, Notes, Tags, Status];
      }
    }
  }

  /** The issues of the fields `keys`, in that order. */
  function Gather(schema: Schema, raw: Input, keys: seq<Key>): seq<Issue> {
    if |keys| == 0 then []
    else Attach(keys[0], FieldReport(schema, raw, keys[0]).messages) + Gather(schema, raw, keys[1..])
  }

  /** None of the fields `keys` aborted. */
  predicate AllLive(schema: Schema, raw: Input, keys: seq<Key>) {
    |keys| == 0 || (FieldReport(schema, raw, keys[0]).live && AllLive(schema, raw, keys[1..]))
  }

  /** The issues of all of the schema's fields, in declaration order. */
  function FieldIssues(schema: Schema, raw: Input): seq<Issue> {
    Gather(schema, raw, Order(schema))
  }

  lemma {:induction false} AllLiveEach(schema: Schema, raw: Input, keys: seq<Key>)
    ensures AllLive(schema, raw, keys) <==> forall k :: k in keys ==> FieldReport(schema, raw, k).live
  {
    if |keys| > 0 {
      AllLiveEach(schema, raw, keys[1..]);
      assert forall k :: k in keys <==> k == keys[0] || k in keys[1..];
    }
  }

  lemma {:induction false} GatherEmpty(schema: Schema, raw: Input, keys: seq<Key>)
    ensures |Gather(schema, raw, keys)| == 0 <==> forall k :: k in keys ==> |FieldReport(schema, raw, k).messages| == 0
  {
    if |keys| > 0 {
      GatherEmpty(schema, raw, keys[1..]);
      assert forall k :: k in keys <==> k == keys[0] || k in keys[1..];
    }
  }

  /** `MessagesFor` of a concatenation is the concatenation of the two. */
  lemma {:induction false} MessagesForAppend(a: seq<Issue>, b: seq<Issue>, k: Key)
    ensures MessagesFor(a + b, k) == MessagesFor(a, k) + MessagesFor(b, k)
  {
    if |a| == 0 {
      assert a + b == b;
    } else {
      assert (a + b)[0] == a[0];
      assert (a + b)[1..] == a[1..] + b;
      MessagesForAppend(a[1..], b, k);
      if a[0].path == k {
        assert [a[0].message] + (MessagesFor(a[1..], k) + MessagesFor(b, k))
          == ([a[0].message] + MessagesFor(a[1..], k)) + MessagesFor(b, k);
      }
    }
  }

  lemma {:induction false} MessagesForAttach(path: Key, msgs: seq<Message>, k: Key)
    ensures MessagesFor(Attach(path, msgs), k) == if path == k then msgs else []
  {
    if |msgs| > 0 {
      MessagesForAttach(path, msgs[1..], k);
      assert [msgs[0]] + msgs[1..] == msgs;
    }
  }

  /** Each declared field's messages reach the issue list once, under its own path, and nothing else does. */
  lemma {:induction false} GatherMessages(schema: Schema, raw: Input, keys: seq<Key>, k: Key)
    requires Distinct(keys)
    ensures MessagesFor(Gather(schema, raw, keys), k) == if k in keys then FieldReport(schema, raw, k).messages else []
  {
    if |keys| > 0 {
      var msgs := FieldReport(schema, raw, keys[0]).messages;
      var rest := Gather(schema, raw, keys[1..]);
      assert Gather(schema, raw, keys) == Attach(keys[0], msgs) + rest;
      MessagesForAppend(Attach(keys[0], msgs), rest, k);
      MessagesForAttach(keys[0], msgs, k);
      DistinctTail(keys);
      GatherMessages(schema, raw, keys[1..], k);
      assert k in keys <==> k == keys[0] || k in keys[1..];
    }
  }

  lemma DistinctTail(keys: seq<Key>)
    requires |keys| > 0 && Distinct(keys)
    ensures Distinct(keys[1..]) && keys[0] !in keys[1..]
  {
    assert forall i :: 0 <= i < |keys[1..]| ==> keys[1..][i] == keys[i + 1];
  }

  /** What field `k` must hold for the schema to accept it. */
  predicate FieldAccepted(schema: Schema, raw: Input, k: Key) {
    var buyer := schema.BuyerSchema?;
    match k
    case FullName => NameAccepted(raw.fullName)
    case Email => EmailAccepted(raw.email)
    case Phone => PhoneAccepted(raw.phone)
    case City => OneOf(Cities, raw.city)
    case PropertyType => OneOf(PropertyTypes, raw.propertyType)
    case Bhk => if buyer then OptionalOneOf(BhkValues, raw.bhk) else CsvBhkAccepted(raw.bhk)
    case Purpose => OneOf(Purposes, raw.purpose)
    case BudgetMin => if buyer then BudgetAccepted(raw.budgetMin) else AbsentOrString(raw.budgetMin)
    case BudgetMax => if buyer then BudgetAccepted(raw.budgetMax) else AbsentOrString(raw.budgetMax)
    case Timeline => OneOf(Timelines, raw.timeline)
    case Source => OneOf(Sources, raw.source)
    case Status => OptionalOneOf(Statuses, raw.status)
    case Notes => NotesAccepted(raw.notes)
    case Tags => if buyer then TagsAccepted(raw.tags) else AbsentOrString(raw.tags)
  }

  /** What field `k` must hold for the schema not to abort on it. */
  predicate FieldShaped(schema: Schema, raw: Input, k: Key) {
    var buyer := schema.BuyerSchema?;
    match k
    case FullName => raw.fullName.Str?
    case Email => AbsentOrString(raw.email)
    case Phone => raw.phone.Str?
    case City => OneOf(Cities, raw.city)
    case PropertyType => OneOf(PropertyTypes, raw.propertyType)
    case Bhk => if buyer then OptionalOneOf(BhkValues, raw.bhk) else CsvBhkAccepted(raw.bhk)
    case Purpose => OneOf(Purposes, raw.purpose)
    case BudgetMin => if buyer then raw.budgetMin.Undefined? || raw.budgetMin.Num? else AbsentOrString(raw.budgetMin)
    case BudgetMax => if buyer then raw.budgetMax.Undefined? || raw.budgetMax.Num? else AbsentOrString(raw.budgetMax)
    case Timeline => OneOf(Timelines, raw.timeline)
    case Source => OneOf(Sources, raw.source)
    case Status => OptionalOneOf(Statuses, raw.status)
    case Notes => AbsentOrString(raw.notes)
    case Tags => if buyer then raw.tags.Undefined? || StringList(raw.tags) else AbsentOrString(raw.tags)
  }

  /** A field of `buyerSchema` reports no issue exactly when it is accepted, and aborts exactly when it is not shaped. */
  lemma BuyerReportMeans(raw: Input, k: Key)
    ensures |BuyerReport(raw, k).messages| == 0 <==> FieldAccepted(BuyerSchema, raw, k)
    ensures BuyerReport(raw, k).live <==> FieldShaped(BuyerSchema, raw, k)
  {
    match k
    case FullName => NameFieldAccepts(raw.fullName, FullNameTooShort, FullNameTooLong);
    case Email => EmailFieldAccepts(raw.email, EmailInvalid);
    case Phone => PhoneFieldAccepts(raw.phone);
    case BudgetMin => BudgetFieldAccepts(raw.budgetMin);
    case BudgetMax => BudgetFieldAccepts(raw.budgetMax);
    case Notes => NotesFieldAccepts(raw.notes, NotesTooLong);
    case Tags => TagsFieldAccepts(raw.tags);
    case _ =>
  }

  /** A field of `csvBuyerSchema` reports no issue exactly when it is accepted, and aborts exactly when it is not shaped. */
  lemma CsvReportMeans(raw: Input, k: Key)
    ensures |CsvReport(raw, k).messages| == 0 <==> FieldAccepted(CsvSchema, raw, k)
    ensures CsvReport(raw, k).live <==> FieldShaped(CsvSchema, raw, k)
  {
    match k
    case FullName => NameFieldAccepts(raw.fullName, TooSmall(2), TooBig(80));
    case Email => EmailFieldAccepts(raw.email, InvalidEmail);
    case Phone => PhoneFieldAccepts(raw.phone);
    case Notes => NotesFieldAccepts(raw.notes, TooBig(1000));
    case _ =>
  }

  lemma ReportMeans(schema: Schema, raw: Input, k: Key)
    ensures |FieldReport(schema, raw, k).messages| == 0 <==> FieldAccepted(schema, raw, k)
    ensures FieldReport(schema, raw, k).live <==> FieldShaped(schema, raw, k)
  {
    if schema.BuyerSchema? {
      BuyerReportMeans(raw, k);
    } else {
      CsvReportMeans(raw, k);
    }
  }

  /** The record-level predicate is the per-field one, field by field. */
  lemma FieldsAcceptedEach(schema: Schema, raw: Input)
    ensures FieldsAccepted(schema, raw) <==> forall k :: FieldAccepted(schema, raw, k)
  {
    if FieldsAccepted(schema, raw) {
      forall k ensures FieldAccepted(schema, raw, k) { }
    }
    if forall k :: FieldAccepted(schema, raw, k) {
      AllFieldsAccepted(schema, raw);
    }
  }

  lemma AllFieldsAccepted(schema: Schema, raw: Input)
    requires forall k :: FieldAccepted(schema, raw, k)
    ensures FieldsAccepted(schema, raw)
  {
    if schema.BuyerSchema? {
      AllBuyerFieldsAccepted(raw);
    } else {
      AllCsvFieldsAccepted(raw);
    }
  }

  lemma AllBuyerFieldsAccepted(raw: Input)
    requires forall k :: FieldAccepted(BuyerSchema, raw, k)
    ensures FieldsAccepted(BuyerSchema, raw)
  {
    assert FieldAccepted(BuyerSchema, raw, FullName);
    assert FieldAccepted(BuyerSchema, raw, Email);
    assert FieldAccepted(BuyerSchema, raw, Phone);
    assert FieldAccepted(BuyerSchema, raw, City);
    assert FieldAccepted(BuyerSchema, raw, PropertyType);
    assert FieldAccepted(BuyerSchema, raw, Bhk);
    assert FieldAccepted(BuyerSchema, raw, Purpose);
    assert FieldAccepted(BuyerSchema, raw, BudgetMin);
    assert FieldAccepted(BuyerSchema, raw, BudgetMax);
    assert FieldAccepted(BuyerSchema, raw, Timeline);
    assert FieldAccepted(BuyerSchema, raw, Source);
    assert FieldAccepted(BuyerSchema, raw, Status);
    assert FieldAccepted(BuyerSchema, raw, Notes);
    assert FieldAccepted(BuyerSchema, raw, Tags);
  }

  lemma AllCsvFieldsAccepted(raw: Input)
    requires forall k :: FieldAccepted(CsvSchema, raw, k)
    ensures FieldsAccepted(CsvSchema, raw)
  {
    assert FieldAccepted(CsvSchema, raw, FullName);
    assert FieldAccepted(CsvSchema, raw, Email);
    assert FieldAccepted(CsvSchema, raw, Phone);
    assert FieldAccepted(CsvSchema, raw, City);
    assert FieldAccepted(CsvSchema, raw, PropertyType);
    assert FieldAccepted(CsvSchema, raw, Bhk);
    assert FieldAccepted(CsvSchema, raw, Purpose);
    assert FieldAccepted(CsvSchema, raw, BudgetMin);
    assert FieldAccepted(CsvSchema, raw, BudgetMax);
    assert FieldAccepted(CsvSchema, raw, Timeline);
    assert FieldAccepted(CsvSchema, raw, Source);
    assert FieldAccepted(CsvSchema, raw, Status);
    assert FieldAccepted(CsvSchema, raw, Notes);
    assert FieldAccepted(CsvSchema, raw, Tags);
  }

  /** The record-level predicate is the per-field one, field by field. */
  lemma FieldsShapedEach(schema: Schema, raw: Input)
    ensures FieldsShaped(schema, raw) <==> forall k :: FieldShaped(schema, raw, k)
  {
    if FieldsShaped(schema, raw) {
      forall k ensures FieldShaped(schema, raw, k) { }
    }
    if forall k :: FieldShaped(schema, raw, k) {
      AllFieldsShaped(schema, raw);
    }
  }

  lemma AllFieldsShaped(schema: Schema, raw: Input)
    requires forall k :: FieldShaped(schema, raw, k)
    ensures FieldsShaped(schema, raw)
  {
    if schema.BuyerSchema? {
      AllBuyerFieldsShaped(raw);
    } else {
      AllCsvFieldsShaped(raw);
    }
  }

  lemma AllBuyerFieldsShaped(raw: Input)
    requires forall k :: FieldShaped(BuyerSchema, raw, k)
    ensures FieldsShaped(BuyerSchema, raw)
  {
    assert FieldShaped(BuyerSchema, raw, FullName);
    assert FieldShaped(BuyerSchema, raw, Email);
    assert FieldShaped(BuyerSchema, raw, Phone);
    assert FieldShaped(BuyerSchema, raw, City);
    assert FieldShaped(BuyerSchema, raw, PropertyType);
    assert FieldShaped(BuyerSchema, raw, Bhk);
    assert FieldShaped(BuyerSchema, raw, Purpose);
    assert FieldShaped(BuyerSchema, raw, BudgetMin);
    assert FieldShaped(BuyerSchema, raw, BudgetMax);
    assert FieldShaped(BuyerSchema, raw, Timeline);
    assert FieldShaped(BuyerSchema, raw, Source);
    assert FieldShaped(BuyerSchema, raw, Status);
    assert FieldShaped(BuyerSchema, raw, Notes);
    assert FieldShaped(BuyerSchema, raw, Tags);
  }

  lemma AllCsvFieldsShaped(raw: Input)
    requires forall k :: FieldShaped(CsvSchema, raw, k)
    ensures FieldsShaped(CsvSchema, raw)
  {
    assert FieldShaped(CsvSchema, raw, FullName);
    assert FieldShaped(CsvSchema, raw, Email);
    assert FieldShaped(CsvSchema, raw, Phone);
    assert FieldShaped(CsvSchema, raw, City);
    assert FieldShaped(CsvSchema, raw, PropertyType);
    assert FieldShaped(CsvSchema, raw, Bhk);
    assert FieldShaped(CsvSchema, raw, Purpose);
    assert FieldShaped(CsvSchema, raw, BudgetMin);
    assert FieldShaped(CsvSchema, raw, BudgetMax);
    assert FieldShaped(CsvSchema, raw, Timeline);
    assert FieldShaped(CsvSchema, raw, Source);
    assert FieldShaped(CsvSchema, raw, Status);
    assert FieldShaped(CsvSchema, raw, Notes);
    assert FieldShaped(CsvSchema, raw, Tags);
  }

  /** The fields report no issue exactly when every field is accepted. */
  lemma FieldIssuesEmpty(schema: Schema, raw: Input)
    ensures |FieldIssues(schema, raw)| == 0 <==> FieldsAccepted(schema, raw)
  {
    OrderComplete(schema);
    GatherEmpty(schema, raw, Order(schema));
    FieldsAcceptedEach(schema, raw);
    forall k ensures |FieldReport(schema, raw, k).messages| == 0 <==> FieldAccepted(schema, raw, k) {
      ReportMeans(schema, raw, k);
    }
  }

  /** The object aborts exactly when some field is not shaped. */
  lemma AllLiveShaped(schema: Schema, raw: Input)
    ensures AllLive(schema, raw, Order(schema)) <==> FieldsShaped(schema, raw)
  {
    OrderComplete(schema);
    AllLiveEach(schema, raw, Order(schema));
    FieldsShapedEach(schema, raw);
    forall k ensures FieldReport(schema, raw, k).live <==> FieldShaped(schema, raw, k) {
      ReportMeans(schema, raw, k);
    }
  }

  /** The field issues under path `k` are exactly field `k`'s own messages. */
  lemma FieldIssuesFor(schema: Schema, raw: Input, k: Key)
    ensures MessagesFor(FieldIssues(schema, raw), k) == FieldReport(schema, raw, k).messages
    ensures HasIssue(FieldIssues(schema, raw), k) <==> !FieldAccepted(schema, raw, k)
  {
    OrderComplete(schema);
    GatherMessages(schema, raw, Order(schema), k);
    ReportMeans(schema, raw, k);
  }

  /** A well-formed outcome has no messages exactly when it is clean. */
  lemma CleanIffOk<T>(f: Field<T>)
    requires f.WellFormed()
    ensures |f.Messages()| == 0 <==> f.Ok?
  {
  }

  /** An accepted field is never one that aborts. */
  lemma AcceptedIsShaped(schema: Schema, raw: Input)
    ensures FieldsAccepted(schema, raw) ==> FieldsShaped(schema, raw)
  {
  }

  /** The parsed record (`z.infer`) both schemas produce. */
  datatype Lead = Lead(
    fullName: string,
    email: Option<string>,
    phone: string,
    city: string,
    propertyType: string,
    bhk: Option<string>,
    purpose: string,
    budgetMin: Option<int>,
    budgetMax: Option<int>,
    timeline: string,
    source: string,
    status: string,
    notes: Option<string>,
    tags: Option<seq<string>>)

  /** A whole-number budget as the integer it is. */
  function WholeBudget(b: Option<real>): (r: Option<int>)
    requires b.Some? ==> IsInteger(b.value)
    ensures r.Some? <==> b.Some?
    ensures r.Some? ==> r.value as real == b.value
  {
    match b
    case Some(x) => Some(x.Floor)
    case None => None
  }

  /** The record `buyerSchema` produces for a body it accepts. */
  function BuyerParsed(raw: Input): (r: Lead)
    requires FieldsAccepted(BuyerSchema, raw)
    ensures r.fullName == Trim(raw.fullName.s) && r.phone == raw.phone.s
    ensures r.email == OptStr(raw.email) && r.notes == OptStr(raw.notes) && r.bhk == OptStr(raw.bhk)
    ensures r.city == raw.city.s && r.propertyType == raw.propertyType.s && r.purpose == raw.purpose.s
    ensures r.timeline == raw.timeline.s && r.source == raw.source.s
    ensures r.status == if raw.status.Undefined? then "New" else raw.status.s
    ensures r.budgetMin.Some? <==> raw.budgetMin.Num?
    ensures r.budgetMin.Some? ==> r.budgetMin.value as real == raw.budgetMin.r
    ensures r.budgetMax.Some? <==> raw.budgetMax.Num?
    ensures r.budgetMax.Some? ==> r.budgetMax.value as real == raw.budgetMax.r
    ensures r.tags == Some(if raw.tags.List? then TrimmedItems(raw.tags.items) else [])
  {
    Lead(
      NameField(raw.fullName, FullNameTooShort, FullNameTooLong).value,
      EmailField(raw.email, EmailInvalid).value,
      PhoneField(raw.phone).value,
      EnumField(Cities, raw.city).value,
      EnumField(PropertyTypes, raw.propertyType).value,
      OptionalEnumField(BhkValues, raw.bhk).value,
      EnumField(Purposes, raw.purpose).value,
      WholeBudget(BudgetField(raw.budgetMin).value),
      WholeBudget(BudgetField(raw.budgetMax).value),
      EnumField(Timelines, raw.timeline).value,
      EnumField(Sources, raw.source).value,
      StatusField(raw.status).value,
      NotesField(raw.notes, NotesTooLong).value,
      Some(TagsField(raw.tags).value))
  }

  /** The record `csvBuyerSchema` produces for a row it accepts. */
  function CsvParsed(raw: Input): (r: Lead)
    requires FieldsAccepted(CsvSchema, raw)
    ensures r.fullName == Trim(raw.fullName.s) && r.phone == raw.phone.s
    ensures r.email == OptStr(raw.email) && r.notes == OptStr(raw.notes) && r.bhk == OptStr(raw.bhk)
    ensures r.city == raw.city.s && r.propertyType == raw.propertyType.s && r.purpose == raw.purpose.s
    ensures r.timeline == raw.timeline.s && r.source == raw.source.s
    ensures r.status == if raw.status.Undefined? then "New" else raw.status.s
    ensures r.budgetMin == if raw.budgetMin.Str? then CsvBudget(raw.budgetMin.s) else None
    ensures r.budgetMax == if raw.budgetMax.Str? then CsvBudget(raw.budgetMax.s) else None
    ensures r.tags == if raw.tags.Str? then Some(CsvTags(raw.tags.s)) else None
  {
    Lead(
      NameField(raw.fullName, TooSmall(2), TooBig(80)).value,
      EmailField(raw.email, InvalidEmail).value,
      PhoneField(raw.phone).value,
      EnumField(Cities, raw.city).value,
      EnumField(PropertyTypes, raw.propertyType).value,
      CsvBhkField(raw.bhk).value,
      EnumField(Purposes, raw.purpose).value,
      CsvBudgetField(raw.budgetMin).value,
      CsvBudgetField(raw.budgetMax).value,
      EnumField(Timelines, raw.timeline).value,
      EnumField(Sources, raw.source).value,
      StatusField(raw.status).value,
      NotesField(raw.notes, TooBig(1000)).value,
      CsvTagsField(raw.tags).value)
  }

  /** The record a schema produces for a record whose every field it accepts. */
  function Parsed(schema: Schema, raw: Input): Lead
    requires FieldsAccepted(schema, raw)
  {
    if schema.BuyerSchema? then BuyerParsed(raw) else CsvParsed(raw)
  }

  /** The enumerated fields of a lead hold spellings the schemas accept (a CSV BHK may also be empty). */
  predicate Spelled(lead: Lead) {
    && lead.city in Cities && lead.propertyType in PropertyTypes && lead.purpose in Purposes
    && lead.timeline in Timelines && lead.source in Sources && lead.status in Statuses
    && (lead.bhk.Some? ==> lead.bhk.value in BhkValues || lead.bhk.value == "")
  }

  lemma ParsedSpelled(schema: Schema, raw: Input)
    requires FieldsAccepted(schema, raw)
    ensures Spelled(Parsed(schema, raw))
  {
  }

  /**
   * The issues `schema.safeParse(raw)` reports, in zod's order: the field
   * issues, then, when no field aborted, the refinement issues.
   */
  function Issues(schema: Schema, raw: Input): (r: seq<Issue>)
    ensures |r| == 0 <==> Accepted(schema, raw)
  {
    var fieldIssues := FieldIssues(schema, raw);
    FieldIssuesEmpty(schema, raw);
    AllLiveShaped(schema, raw);
    AcceptedIsShaped(schema, raw);
    if AllLive(schema, raw, Order(schema)) then fieldIssues + RefineIssues(schema, raw) else fieldIssues
  }

  /** `schema.safeParse(raw)`: the parsed record when there is no issue, otherwise every issue. */
  function Validate(schema: Schema, raw: Input): (r: Result<Lead, seq<Issue>>)
    ensures r.Success? <==> Accepted(schema, raw)
    ensures r.Success? ==> r.value == Parsed(schema, raw) && Spelled(r.value)
    ensures r.Failure? ==> r.error == Issues(schema, raw) && |r.error| > 0
  {
    var issues := Issues(schema, raw);
    if |issues| == 0 then
      ParsedSpelled(schema, raw);
      Success(Parsed(schema, raw))
    else Failure(issues)
  }

  /** `validateBuyer` / `validateCreateBuyer`: `buyerSchema.safeParse` on a JSON body. */
  function ValidateBuyer(body: Raw): Result<Lead, seq<Issue>> {
    Validate(BuyerSchema, FromObject(body))
  }

  /** A parsed CSV row: column name to cell text (strings only; a column that is not there is missing). */
  type CsvRow = map<string, string>

  /** The cell of a column, as the string value the schema sees. */
  function Cell(row: CsvRow, column: string): (v: Json)
    ensures v == if column in row then Str(row[column]) else Undefined
  {
    if column in row then Str(row[column]) else Undefined
  }

  /** The schema's view of a CSV row: its cells under the field names. */
  function FromRow(row: CsvRow): Input {
    Input(Cell(row, "fullName"), Cell(row, "email"), Cell(row, "phone"), Cell(row, "city"),
      Cell(row, "propertyType"), Cell(row, "bhk"), Cell(row, "purpose"), Cell(row, "budgetMin"),
      Cell(row, "budgetMax"), Cell(row, "timeline"), Cell(row, "source"), Cell(row, "status"),
      Cell(row, "notes"), Cell(row, "tags"))
  }

  /** `validateCsvBuyer`: `csvBuyerSchema.safeParse` on a CSV row. */
  function ValidateCsvBuyer(row: CsvRow): Result<Lead, seq<Issue>> {
    Validate(CsvSchema, FromRow(row))
  }

  // ------------------------------------------------ what the errors say

  /** A refinement fails and reports under `k`. */
  predicate RefinementFails(schema: Schema, raw: Input, k: Key) {
    (k == Bhk && !BhkRuleHolds(schema, raw)) || (k == BudgetMax && !BudgetRuleHolds(schema, raw))
  }

  /**
   * The issues under each path: the field's own messages, then the
   * refinement's, which are there only when no field aborted. So a field is
   * reported exactly when it is rejected or, for `bhk` and `budgetMax`, when
   * its refinement fails and got to run.
   */
  lemma IssuesFor(schema: Schema, raw: Input, k: Key)
    ensures MessagesFor(Issues(schema, raw), k)
      == FieldReport(schema, raw, k).messages + (if FieldsShaped(schema, raw) then MessagesFor(RefineIssues(schema, raw), k) else [])
    ensures HasIssue(Issues(schema, raw), k)
      <==> !FieldAccepted(schema, raw, k) || (FieldsShaped(schema, raw) && RefinementFails(schema, raw, k))
  {
    var fieldIssues := FieldIssues(schema, raw);
    AllLiveShaped(schema, raw);
    FieldIssuesFor(schema, raw, k);
    MessagesForAppend(fieldIssues, RefineIssues(schema, raw), k);
    var refined := MessagesFor(RefineIssues(schema, raw), k);
    assert |refined| > 0 <==> RefinementFails(schema, raw, k) by {
      assert k != Bhk && k != BudgetMax ==> !HasIssue(RefineIssues(schema, raw), k);
    }
    ReportMeans(schema, raw, k);
  }

  /**
   * Refinement A: a residential property type with a missing BHK is never
   * accepted. The issue is on path `bhk`, with the rule's message, whenever
   * no field aborted (zod skips refinements otherwise).
   */
  lemma BhkRequiredForResidential(schema: Schema, raw: Input)
    requires OneOf(Residential, raw.propertyType) && BhkMissing(schema, raw.bhk)
    ensures !Accepted(schema, raw)
    ensures MessagesFor(Issues(schema, raw), Bhk) == if FieldsShaped(schema, raw) then [BhkRequired] else []
  {
    IssuesFor(schema, raw, Bhk);
    ReportMeans(schema, raw, Bhk);
  }

  /** For the other property types the rule never fires: `bhk` is reported only when its own value is rejected. */
  lemma BhkOptionalOtherwise(schema: Schema, raw: Input)
    requires !OneOf(Residential, raw.propertyType)
    ensures HasIssue(Issues(schema, raw), Bhk) <==> !FieldAccepted(schema, raw, Bhk)
  {
    IssuesFor(schema, raw, Bhk);
  }

  /**
   * Refinement B: a maximum below the minimum is never accepted, and the
   * issue is on path `budgetMax` whenever no field aborted.
   */
  lemma BudgetOrderEnforced(schema: Schema, raw: Input)
    requires BudgetValue(schema, raw.budgetMin).Some? && BudgetValue(schema, raw.budgetMax).Some?
    requires BudgetValue(schema, raw.budgetMax).value < BudgetValue(schema, raw.budgetMin).value
    ensures !Accepted(schema, raw)
    ensures FieldsShaped(schema, raw) ==> HasIssue(Issues(schema, raw), BudgetMax)
  {
    IssuesFor(schema, raw, BudgetMax);
  }

  /** With either budget absent the rule never fires: `budgetMax` is reported only when its own value is rejected. */
  lemma BudgetRuleNeedsBoth(schema: Schema, raw: Input)
    requires BudgetValue(schema, raw.budgetMin).None? || BudgetValue(schema, raw.budgetMax).None?
    ensures HasIssue(Issues(schema, raw), BudgetMax) <==> !FieldAccepted(schema, raw, BudgetMax)
  {
    IssuesFor(schema, raw, BudgetMax);
  }

  // ------------------------------------------------ CSV transforms

  /** A CSV budget cell holding a decimal number reads as that number; negative ones too (there is no minimum). */
  lemma CsvBudgetDecimal(n: nat)
    ensures CsvBudget(DecimalString(n)) == Some(n)
    ensures CsvBudget("-" + DecimalString(n)) == Some(-(n as int))
  {
    var s := DecimalString(n);
    ParseIntDecimal(n, true);
    var m := "-" + s;
    assert !IsSpace(m[0]);
    assert TrimStart(m) == m;
    assert m[1..] == s;
    assert !IsSpace(s[0]) && s[0] != '-' && s[0] != '+';
    assert TrimStart(s) == s;
  }

  /** An empty or non-numeric CSV budget cell reads as absent. */
  lemma CsvBudgetAbsent(s: string)
    requires var t := TrimStart(s); |t| == 0 || (!IsDigit(t[0]) && t[0] != '-' && t[0] != '+')
    ensures CsvBudget(s) == None
  {
    ParseIntNoDigits(s, true);
  }

  /** The CSV tags cell: every tag is non-empty and trimmed, and clean tags joined by commas read back. */
  lemma CsvTagsClean(s: string)
    ensures forall i :: 0 <= i < |CsvTags(s)| ==> CsvTags(s)[i] != "" && Trimmed(CsvTags(s)[i])
  {
    SplitTagsClean(s);
  }

  lemma CsvTagsJoin(tags: seq<string>)
    requires forall i :: 0 <= i < |tags| ==> tags[i] != "" && Trimmed(tags[i]) && ',' !in tags[i]
    ensures CsvTags(Join(tags, ",")) == tags
  {
    SplitTagsJoin(tags);
  }

  /** Enums compare spellings exactly: `"walk-in"` is not the source `"Walk-in"`. */
  lemma EnumIsCaseSensitive()
    ensures EnumField(Sources, Str("walk-in")).Aborted?
    ensures EnumField(Sources, Str("Walk-in")).Ok?
    ensures StatusField(Str("")).Aborted?
  {
    assert "walk-in"[0] != "Walk-in"[0];
    assert "walk-in" !in Sources;
  }
}
