/**
 * The client-side pieces of app/components/LeadForm.tsx that feed the
 * schema: the resolver that coerces the two budget inputs, runs the create
 * schema and turns its field errors into one message per field, and the
 * tags input that splits its text on commas.
 */
module LeadForm {
  import opened Wrappers
  import opened Text
  import opened JsValues
  import opened Validation

  // ------------------------------------------------------------- payload

  /** `value ? Number(value) : undefined`: an empty budget input is no budget. */
  function CoerceBudget(v: Json): (r: Json)
    ensures !Truthy(v) ==> r.Undefined?
    ensures Truthy(v) ==> r == ToNumber(v)
  {
    if Truthy(v) then ToNumber(v) else Undefined
  }

  /** A budget typed in decimal digits becomes that number; an empty one is left out. */
  lemma CoerceBudgetDecimal(n: nat)
    ensures CoerceBudget(Str(DecimalString(n))) == Num(n as real)
    ensures CoerceBudget(Str("")) == Undefined
  {
    assert |DecimalString(n)| >= 1;
    ToNumberDecimal(n);
  }

  /** `{ ...values, budgetMin: …, budgetMax: … }`. */
  function Payload(values: Raw): Raw {
    values["budgetMin" := CoerceBudget(Get(values, "budgetMin"))]["budgetMax" := CoerceBudget(Get(values, "budgetMax"))]
  }

  /** The payload differs from the form values only in the two budgets. */
  lemma PayloadKeepsOtherFields(values: Raw, name: string)
    requires name != "budgetMin" && name != "budgetMax"
    ensures Get(Payload(values), name) == Get(values, name)
    ensures Get(Payload(values), "budgetMin") == CoerceBudget(Get(values, "budgetMin"))
    ensures Get(Payload(values), "budgetMax") == CoerceBudget(Get(values, "budgetMax"))
  {
  }

  /** So an empty budget input never draws a budget error of its own. */
  lemma EmptyBudgetAccepted(values: Raw)
    requires Get(values, "budgetMin") == Str("")
    ensures FieldAccepted(BuyerSchema, FromObject(Payload(values)), BudgetMin)
  {
    assert Get(Payload(values), "budgetMin") == Undefined;
  }

  // ------------------------------------------------------------ resolver

  /** The error react-hook-form shows under one field. */
  datatype FormError = FormError(kind: string, message: Message)

  /** What the resolver returns: the parsed values (`None` for `{}`) and the errors per field. */
  datatype Resolution = Resolution(values: Option<Lead>, errors: map<Key, FormError>)

  /** One `manual` error per field that has messages, carrying its first message. */
  function FirstErrors(fieldErrors: map<Key, seq<Message>>): (errors: map<Key, FormError>)
    ensures forall k :: k in errors <==> k in fieldErrors && |fieldErrors[k]| > 0
    ensures forall k :: k in errors ==> errors[k] == FormError("manual", fieldErrors[k][0])
  {
    map k | k in fieldErrors && |fieldErrors[k]| > 0 :: FormError("manual", fieldErrors[k][0])
  }

  /** The `forEach` over the keys of `fieldErrors`, in whatever order they come. */
  method CollectErrors(fieldErrors: map<Key, seq<Message>>) returns (errors: map<Key, FormError>)
    ensures errors == FirstErrors(fieldErrors)
  {
    errors := map[];
    var remaining := fieldErrors.Keys;
    while remaining != {}
      invariant remaining <= fieldErrors.Keys
      invariant forall k :: k in errors <==> k in fieldErrors && k !in remaining && |fieldErrors[k]| > 0
      invariant forall k :: k in errors ==> errors[k] == FormError("manual", fieldErrors[k][0])
      decreases remaining
    {
      var k :| k in remaining;
      if |fieldErrors[k]| > 0 {
        errors := errors[k := FormError("manual", fieldErrors[k][0])];
      }
      remaining := remaining - {k};
    }
    assert errors.Keys == FirstErrors(fieldErrors).Keys;
  }

  /**
   * `createBuyerResolver` (the create schema is the buyer schema): on
   * success the parsed values and no errors; on failure no values and the
   * first message of every field that has one.
   */
  method Resolve(values: Raw) returns (r: Resolution)
    ensures var raw := FromObject(Payload(values));
      && (r.values.Some? <==> Accepted(BuyerSchema, raw))
      && (r.values.Some? ==> r.values.value == Parsed(BuyerSchema, raw) && r.errors == map[])
      && (r.values.None? ==> r.errors == FirstErrors(FieldErrors(Issues(BuyerSchema, raw))))
  {
    var result := ValidateBuyer(Payload(values));
    if result.Success? {
      return Resolution(Some(result.value), map[]);
    }
    var errors := CollectErrors(FieldErrors(result.error));
    r := Resolution(None, errors);
  }

  /** The form errors of a list of issues: one under each field with an issue, carrying its first message. */
  lemma FirstErrorsOfIssues(issues: seq<Issue>, k: Key)
    ensures var errors := FirstErrors(FieldErrors(issues));
      && (|issues| > 0 ==> |errors| > 0)
      && (k in errors <==> HasIssue(issues, k))
      && (k in errors ==> errors[k].message == MessagesFor(issues, k)[0])
  {
    if |issues| > 0 {
      assert issues[0].path in FirstErrors(FieldErrors(issues));
    }
  }

  /**
   * A failed form shows an error under exactly the fields that have an
   * issue, and at least one; each shows its first message: the first of
   * the field's own messages, or the refinement's when the field had none.
   */
  lemma ResolverErrors(raw: Input, k: Key)
    requires !Accepted(BuyerSchema, raw)
    ensures var errors := FirstErrors(FieldErrors(Issues(BuyerSchema, raw)));
      && |errors| > 0
      && (k in errors <==> !FieldAccepted(BuyerSchema, raw, k) || (FieldsShaped(BuyerSchema, raw) && RefinementFails(BuyerSchema, raw, k)))
      && (k in errors ==> errors[k].message == MessagesFor(Issues(BuyerSchema, raw), k)[0])
  {
    IssuesFor(BuyerSchema, raw, k);
    FirstErrorsOfIssues(Issues(BuyerSchema, raw), k);
  }

  // ---------------------------------------------------------------- tags

  /** The strings as a JSON array. */
  function Strings(tags: seq<string>): (items: seq<Json>)
    ensures |items| == |tags|
    ensures forall i :: 0 <= i < |items| ==> items[i] == Str(tags[i])
  {
    if |tags| == 0 then [] else [Str(tags[0])] + Strings(tags[1..])
  }

  /** `e.target.value.split(",").map((t) => t.trim()).filter(Boolean)`. */
  function TagInput(text: string): Json {
    List(Strings(SplitTags(text)))
  }

  /** Whatever is typed, the tags the input produces pass the tags schema unchanged. */
  lemma TagInputAccepted(text: string)
    ensures TagsAccepted(TagInput(text))
    ensures TagsField(TagInput(text)).Live() && TagsField(TagInput(text)).value == SplitTags(text)
  {
    var tags := SplitTags(text);
    var items := Strings(tags);
    SplitTagsClean(text);
    assert AllStrings(items);
    var trimmed := TrimmedItems(items);
    forall i | 0 <= i < |items|
      ensures Trim(items[i].s) == tags[i] && trimmed[i] == tags[i]
    {
      TrimOfTrimmed(tags[i]);
    }
    assert trimmed == tags;
    assert NonBlankStrings(items);
  }
}
