/** The business table in the hosted spreadsheet service: the decoding of a
    fetched record into a Business with its defaults, the fields written when a
    business is created, the fallbacks when no key is configured or a call
    fails, and the built-in sample list. */
module Airtable {
  import opened Types

  /** The fields of a record; any of them may be missing. */
  datatype AirtableFields = AirtableFields(
    name: Option<string>,
    phone: Option<string>,
    address: Option<string>,
    rating: Option<real>,
    placeId: Option<string>,
    notes: Option<string>,
    description: Option<string>,
    status: Option<string>)

  datatype AirtableRecord = AirtableRecord(id: string, fields: AirtableFields)

  /** `rating || 0`. */
  function RatingOr0(r: Option<real>): (rating: real)
    ensures r.None? ==> rating == 0.0
    ensures r.Some? ==> rating == r.value
  {
    if r.Some? then r.value else 0.0
  }

  /** The record-to-Business mapping of fetchBusinesses. */
  function DecodeRecord(record: AirtableRecord): (b: Business)
    ensures b.id == record.id
    ensures b.name != ""
    ensures b.name == (if Truthy(record.fields.name) then record.fields.name.value else "Unknown Business")
    ensures b.phone == OrElse(record.fields.phone, "") && b.address == OrElse(record.fields.address, "")
    ensures b.placeId == OrElse(record.fields.placeId, "") && b.notes == OrElse(record.fields.notes, "")
    ensures b.description == OrElse(record.fields.description, "")
    ensures b.rating == RatingOr0(record.fields.rating)
    ensures b.status == record.fields.status
  {
    var f := record.fields;
    Business(
      record.id,
      OrElse(f.name, "Unknown Business"),
      OrElse(f.phone, ""),
      OrElse(f.address, ""),
      RatingOr0(f.rating),
      OrElse(f.placeId, ""),
      OrElse(f.notes, ""),
      OrElse(f.description, ""),
      f.status)
  }

  /** The fields createBusiness writes; a missing status is left out of the JSON. */
  function EncodeFields(b: Business): (f: AirtableFields)
    ensures f.name == Some(b.name) && f.rating == Some(b.rating) && f.status == b.status
  {
    AirtableFields(Some(b.name), Some(b.phone), Some(b.address), Some(b.rating),
                   Some(b.placeId), Some(b.notes), Some(b.description), b.status)
  }

  /** A business written by createBusiness and read back by fetchBusinesses is
      the same business under the id the service gave it, provided its name is
      not empty (an empty name reads back as 'Unknown Business'). */
  lemma EncodeDecodeRoundTrip(b: Business, id: string)
    ensures b.name != "" ==> DecodeRecord(AirtableRecord(id, EncodeFields(b))) == b.(id := id)
    ensures b.name == "" ==> DecodeRecord(AirtableRecord(id, EncodeFields(b))).name == "Unknown Business"
  {
  }

  /** getMockBusinesses. */
  const MockBusinesses: seq<Business> := [
    Business("1", "Joe's Auto Repair", "(555) 123-4567",
      "123 Main St, Springfield, IL 62701", 5.0, "mock-place-1",
      "They have been in business for 20 years with no online presence. Their competitors all have websites and are showing up in Google searches. Mention that 78% of customers research auto shops online before visiting.",
      "Family-owned auto repair shop specializing in domestic vehicles.",
      None),
    Business("2", "Bella Salon & Spa", "(555) 234-5678",
      "456 Oak Ave, Springfield, IL 62702", 5.0, "mock-place-2",
      "They rely entirely on walk-ins and word of mouth. A website with online booking could increase their appointments by 40%. They have great reviews on Yelp but no way for customers to book directly.",
      "Full-service hair salon and day spa with 15 years of experience.",
      None),
    Business("3", "Downtown Deli", "(555) 345-6789",
      "789 Elm St, Springfield, IL 62703", 4.0, "mock-place-3",
      "They are missing out on the lunch crowd that searches for \"restaurants near me\". A simple website with their menu and hours could drive significant foot traffic.",
      "Classic deli serving sandwiches, soups, and catering services.",
      None),
    Business("4", "Quick Print Shop", "(555) 456-7890",
      "321 Pine Rd, Springfield, IL 62704", 4.0, "mock-place-4",
      "Their business services are invisible online. Companies searching for local print services cannot find them. A website with a quote request form would generate leads 24/7.",
      "Commercial printing services for businesses and individuals.",
      None),
    Business("5", "Sunset Plumbing", "(555) 567-8901",
      "654 Maple Dr, Springfield, IL 62705", 3.0, "mock-place-5",
      "Emergency plumbing searches happen at all hours. Without a website, they are invisible to people with burst pipes at 2am. Competitors are capturing all the emergency calls.",
      "24/7 plumbing services for residential and commercial properties.",
      None)
  ]

  /** The sample list: five businesses with ids '1' to '5', in that order,
      rated 5, 5, 4, 4, 3, none with a status. */
  lemma MockBusinessesShape()
    ensures |MockBusinesses| == 5
    ensures forall i :: 0 <= i < 5 ==> MockBusinesses[i].id == [['1', '2', '3', '4', '5'][i]]
    ensures forall i, j :: 0 <= i < j < 5 ==> MockBusinesses[i].id != MockBusinesses[j].id
    ensures forall i :: 0 <= i < 5 ==> MockBusinesses[i].status == None && MockBusinesses[i].name != ""
    ensures [MockBusinesses[0].rating, MockBusinesses[1].rating, MockBusinesses[2].rating,
             MockBusinesses[3].rating, MockBusinesses[4].rating] == [5.0, 5.0, 4.0, 4.0, 3.0]
  {
  }

  /** What fetchBusinesses returns, and whether it contacted the service. */
  datatype Fetched = Fetched(businesses: seq<Business>, requested: bool)

  /** fetchBusinesses. A reply whose body is not JSON, or has no record list,
      counts as `Malformed`. */
  function FetchBusinesses(apiKey: Option<string>, o: Outcome<seq<AirtableRecord>>): (r: Fetched)
    ensures r.requested <==> Truthy(apiKey)
    ensures r.requested && o.Responded? && IsOk(o.status) && o.body.Parsed? ==>
      |r.businesses| == |o.body.data| && forall i :: 0 <= i < |o.body.data| ==> r.businesses[i] == DecodeRecord(o.body.data[i])
    ensures !(r.requested && o.Responded? && IsOk(o.status) && o.body.Parsed?) ==> r.businesses == MockBusinesses
  {
    if !Truthy(apiKey) then Fetched(MockBusinesses, false)
    else match o
      case Threw(_) => Fetched(MockBusinesses, true)
      case Responded(status, body) =>
        if !IsOk(status) then Fetched(MockBusinesses, true)
        else match body
          case Malformed(_) => Fetched(MockBusinesses, true)
          case Parsed(records) => Fetched(DecodeAll(records), true)
  }

  /** `records.map(decode)`. */
  function DecodeAll(records: seq<AirtableRecord>): (r: seq<Business>)
    ensures |r| == |records| && forall i :: 0 <= i < |records| ==> r[i] == DecodeRecord(records[i])
  {
    seq(|records|, i requires 0 <= i < |records| => DecodeRecord(records[i]))
  }

  /** Every business fetchBusinesses returns has a name. */
  lemma FetchedNamesNonEmpty(apiKey: Option<string>, o: Outcome<seq<AirtableRecord>>)
    ensures forall i :: 0 <= i < |FetchBusinesses(apiKey, o).businesses| ==> FetchBusinesses(apiKey, o).businesses[i].name != ""
  {
    MockBusinessesShape();
  }

  /** The reply to a create: the record the service stored. */
  datatype CreatedRecord = CreatedRecord(id: string, fields: AirtableFields)

  /** The reply-to-Business mapping of createBusiness: name, phone and address
      are copied without a default, the rest as in the fetch mapping. */
  function DecodeCreated(data: CreatedRecord): (b: Business)
    ensures b.id == data.id && b.status == data.fields.status
    ensures data.fields.name.Some? ==> b.name == data.fields.name.value
    ensures data.fields.phone.Some? ==> b.phone == data.fields.phone.value
    ensures data.fields.address.Some? ==> b.address == data.fields.address.value
    ensures b.placeId == OrElse(data.fields.placeId, "") && b.notes == OrElse(data.fields.notes, "")
    ensures b.description == OrElse(data.fields.description, "")
    ensures b.rating == RatingOr0(data.fields.rating)
  {
    var f := data.fields;
    Business(data.id, f.name.GetOr(""), f.phone.GetOr(""), f.address.GetOr(""), RatingOr0(f.rating),
             OrElse(f.placeId, ""), OrElse(f.notes, ""), OrElse(f.description, ""), f.status)
  }

  /** What createBusiness sends (if anything) and returns. */
  datatype Created = Created(sent: Option<AirtableFields>, business: Option<Business>)

  /** createBusiness for a business whose id is ignored. */
  function CreateBusiness(apiKey: Option<string>, b: Business, o: Outcome<CreatedRecord>): (r: Created)
    ensures !Truthy(apiKey) ==> r == Created(None, None)
    ensures Truthy(apiKey) ==> r.sent == Some(EncodeFields(b))
    ensures r.business.Some? <==> Truthy(apiKey) && o.Responded? && IsOk(o.status) && o.body.Parsed?
    ensures r.business.Some? ==> r.business.value == DecodeCreated(o.body.data)
  {
    if !Truthy(apiKey) then Created(None, None)
    else
      var sent := Some(EncodeFields(b));
      match o
      case Threw(_) => Created(sent, None)
      case Responded(status, body) =>
        if !IsOk(status) then Created(sent, None)
        else match body
          case Malformed(_) => Created(sent, None)
          case Parsed(data) => Created(sent, Some(DecodeCreated(data)))
  }

  /** When the service stores and echoes exactly the fields sent, createBusiness
      returns the business it was given, under the new id (even with an empty name). */
  lemma CreateEchoRoundTrip(apiKey: Option<string>, b: Business, id: string, status: nat)
    requires Truthy(apiKey) && IsOk(status)
    ensures var r := CreateBusiness(apiKey, b, Responded(status, Parsed(CreatedRecord(id, EncodeFields(b)))));
      r.business == Some(b.(id := id))
  {
  }
}
