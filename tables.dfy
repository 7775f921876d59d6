/**
 * The lookup tables both buyer routes use to turn validated spellings into
 * the spellings the database enums use (`bhkMap`, `TIMELINE_MAP`,
 * `SOURCE_MAP`), and the stored buyer record they build.
 */
module Tables {
  import opened Wrappers
  import opened Validation

  /** `bhkMap`. */
  const BhkMap: map<string, string> := map["1" := "One", "2" := "Two", "3" := "Three", "4" := "Four", "Studio" := "Studio"]

  /** `TIMELINE_MAP`. */
  const TimelineMap: map<string, string> := map[
    "0-3m" := "ZERO_TO_THREE_MONTHS", "3-6m" := "THREE_TO_SIX_MONTHS",
    ">6m" := "MORE_THAN_SIX_MONTHS", "Exploring" := "EXPLORING"]

  /** `SOURCE_MAP`. */
  const SourceMap: map<string, string> := map[
    "Website" := "Website", "Referral" := "Referral", "Walk-in" := "Walk_in", "Call" := "Call", "Other" := "Other"]

  /** The fixed owner every new record is attached to. */
  const OwnerId: string := "550e8400-e29b-41d4-a716-446655440000"

  /** `table[key]`: the entry, or `None` for `undefined`. */
  function Lookup(table: map<string, string>, key: string): (r: Option<string>)
    ensures r.Some? <==> key in table
    ensures r.Some? ==> r.value == table[key]
  {
    if key in table then Some(table[key]) else None
  }

  /** No two keys of the table share an entry, so a stored spelling names one input spelling. */
  predicate Injective(table: map<string, string>) {
    forall a, b :: a in table && b in table && a != b ==> table[a] != table[b]
  }

  /** Every BHK the schemas accept has an entry, and nothing else does. */
  lemma BhkMapCoversEnum()
    ensures forall v :: v in BhkValues <==> v in BhkMap
  {
  }

  lemma TimelineMapCoversEnum()
    ensures forall v :: v in Timelines <==> v in TimelineMap
  {
  }

  lemma SourceMapCoversEnum()
    ensures forall v :: v in Sources <==> v in SourceMap
  {
  }

  /** The tables are one-to-one. */
  lemma BhkMapInjective()
    ensures Injective(BhkMap)
  {
  }

  lemma TimelineMapInjective()
    ensures Injective(TimelineMap)
  {
  }

  lemma SourceMapInjective()
    ensures Injective(SourceMap)
  {
  }

  /** The source table renames only `Walk-in`; every other source is stored as it is spelled. */
  lemma SourceSpellings()
    ensures SourceMap["Walk-in"] == "Walk_in"
    ensures forall v :: v in SourceMap && v != "Walk-in" ==> SourceMap[v] == v
  {
  }

  /** `bhk ? bhkMap[bhk] : null`: a missing or empty BHK, or one without an entry, is stored as null. */
  function StoredBhk(bhk: Option<string>): (r: Option<string>)
    ensures bhk.Some? && bhk.value in BhkMap ==> r == Some(BhkMap[bhk.value])
    ensures bhk.None? || bhk.value !in BhkMap ==> r.None?
  {
    if bhk.Some? && bhk.value != "" then Lookup(BhkMap, bhk.value) else None
  }

  /** The record handed to `prisma.buyer.create`; absent optional values are `None` (`null`). */
  datatype BuyerRow = BuyerRow(
    fullName: string,
    email: Option<string>,
    phone: string,
    city: string,
    propertyType: string,
    bhk: Option<string>,
    purpose: string,
    budgetMin: Option<int>,
    budgetMax: Option<int>,
    timeline: string,
    source: string,
    status: string,
    notes: Option<string>,
    tags: seq<string>,
    ownerId: string)

  /**
   * The record the buyers route builds from a validated body, or `None` when
   * `SOURCE_MAP` has no entry for the source (the record would then carry an
   * undefined source). The timeline falls back to its own spelling.
   */
  function PostRecord(lead: Lead): (r: Option<BuyerRow>)
    ensures r.Some? <==> lead.source in SourceMap
    ensures r.Some? ==> r.value.source == SourceMap[lead.source]
    ensures r.Some? ==> r.value.timeline == if lead.timeline in TimelineMap then TimelineMap[lead.timeline] else lead.timeline
    ensures r.Some? ==> r.value.bhk == StoredBhk(lead.bhk)
    ensures r.Some? ==> r.value.tags == lead.tags.GetOr([]) && r.value.ownerId == OwnerId
    ensures r.Some? ==> r.value.fullName == lead.fullName && r.value.email == lead.email && r.value.phone == lead.phone
    ensures r.Some? ==> r.value.city == lead.city && r.value.propertyType == lead.propertyType && r.value.purpose == lead.purpose
    ensures r.Some? ==> r.value.budgetMin == lead.budgetMin && r.value.budgetMax == lead.budgetMax
    ensures r.Some? ==> r.value.status == lead.status && r.value.notes == lead.notes
  {
    match Lookup(SourceMap, lead.source)
    case None => None
    case Some(source) =>
      var timeline := Lookup(TimelineMap, lead.timeline).GetOr(lead.timeline);
      Some(BuyerRow(lead.fullName, lead.email, lead.phone, lead.city, lead.propertyType,
        StoredBhk(lead.bhk), lead.purpose, lead.budgetMin, lead.budgetMax, timeline, source,
        lead.status, lead.notes, lead.tags.GetOr([]), OwnerId))
  }

  /**
   * The record the import route builds from a validated row, once its
   * timeline and source have entries: the row's own values with the mapped
   * BHK, timeline and source, tags defaulting to `[]`, and the owner.
   */
  function ImportRecord(lead: Lead, timeline: string, source: string): (r: BuyerRow)
    ensures r.timeline == timeline && r.source == source && r.bhk == StoredBhk(lead.bhk)
    ensures r.tags == lead.tags.GetOr([]) && r.ownerId == OwnerId
    ensures r.fullName == lead.fullName && r.email == lead.email && r.notes == lead.notes
    ensures r.budgetMin == lead.budgetMin && r.budgetMax == lead.budgetMax && r.status == lead.status
    ensures r.phone == lead.phone && r.city == lead.city && r.propertyType == lead.propertyType && r.purpose == lead.purpose
  {
    BuyerRow(lead.fullName, lead.email, lead.phone, lead.city, lead.propertyType,
      StoredBhk(lead.bhk), lead.purpose, lead.budgetMin, lead.budgetMax, timeline, source,
      lead.status, lead.notes, lead.tags.GetOr([]), OwnerId)
  }

  /** A record the schema accepted always finds its source, timeline and BHK in the tables. */
  lemma SpelledLeadsMap(lead: Lead)
    requires Spelled(lead)
    ensures lead.source in SourceMap && lead.timeline in TimelineMap
    ensures lead.bhk.Some? && lead.bhk.value != "" ==> lead.bhk.value in BhkMap
  {
    SourceMapCoversEnum();
    TimelineMapCoversEnum();
    BhkMapCoversEnum();
  }

  /** Every stored spelling is one of the database enum's. */
  lemma PostRecordSpellings(lead: Lead)
    requires lead.timeline in Timelines && PostRecord(lead).Some?
    ensures PostRecord(lead).value.timeline in TimelineMap.Values
    ensures PostRecord(lead).value.source in SourceMap.Values
  {
    TimelineMapCoversEnum();
  }
}
