/**
 * `GMLKBarcodeDetector`: the barcode scanner's result list turned into a
 * list of documents, one map per barcode, with the payload selected by the
 * barcode's value type.
 */
module BarcodeDetector {
  import opened Wrappers
  import opened Document
  import opened Geometry

  /** The `Barcode.TYPE_*` value types of ML Kit. */
  const TypeUnknown := 0
  const TypeContactInfo := 1
  const TypeEmail := 2
  const TypeIsbn := 3
  const TypePhone := 4
  const TypeProduct := 5
  const TypeSms := 6
  const TypeText := 7
  const TypeUrl := 8
  const TypeWifi := 9
  const TypeGeo := 10
  const TypeCalendarEvent := 11
  const TypeDriverLicense := 12

  /** The error code of a failed scan. */
  const FailureCode := "barcodeDetectorError"

  // ---------------------------------------------------------------------
  // The native result (`com.google.mlkit.vision.barcode.Barcode`)

  datatype Email = Email(emailType: int, address: JStr, body: JStr, subject: JStr)
  datatype Phone = Phone(number: JStr, phoneType: int)
  datatype Sms = Sms(message: JStr, phoneNumber: JStr)
  datatype UrlBookmark = UrlBookmark(title: JStr, url: JStr)
  datatype WiFi = WiFi(ssid: JStr, password: JStr, encryptionType: int)
  datatype GeoPoint = GeoPoint(lat: real, lng: real)
  datatype Address = Address(addressLines: Option<seq<JStr>>, addressType: int)
  datatype PersonName = PersonName(
    formattedName: JStr, first: JStr, last: JStr, middle: JStr,
    prefix: JStr, pronunciation: JStr, suffix: JStr)
  datatype ContactInfo = ContactInfo(
    addresses: seq<Address>, emails: seq<Email>, name: Option<PersonName>,
    phones: seq<Phone>, urls: Option<seq<JStr>>, title: JStr, organization: JStr)
  datatype CalendarDateTime = CalendarDateTime(rawValue: JStr)
  datatype CalendarEvent = CalendarEvent(
    description: JStr, location: JStr, organizer: JStr, status: JStr, summary: JStr,
    start: Option<CalendarDateTime>, end: Option<CalendarDateTime>)
  datatype DriverLicense = DriverLicense(
    firstName: JStr, middleName: JStr, lastName: JStr, gender: JStr,
    addressCity: JStr, addressStreet: JStr, addressState: JStr, addressZip: JStr,
    birthDate: JStr, documentType: JStr, licenseNumber: JStr, expiryDate: JStr,
    issueDate: JStr, issuingCountry: JStr)

  /** A detected barcode; each typed payload getter may return null. */
  datatype Barcode = Barcode(
    boundingBox: Option<Rect>,
    cornerPoints: Option<seq<Point>>,
    rawValue: JStr,
    displayValue: JStr,
    format: int,
    valueType: int,
    email: Option<Email>,
    phone: Option<Phone>,
    sms: Option<Sms>,
    url: Option<UrlBookmark>,
    wifi: Option<WiFi>,
    geoPoint: Option<GeoPoint>,
    contactInfo: Option<ContactInfo>,
    calendarEvent: Option<CalendarEvent>,
    driverLicense: Option<DriverLicense>)

  /**
   * ML Kit sets the payload that matches the value type; the transcoder
   * dereferences that payload without a null check, so it relies on this.
   */
  predicate PayloadPresent(b: Barcode)
  {
    && (b.valueType == TypeEmail ==> b.email.Some?)
    && (b.valueType == TypePhone ==> b.phone.Some?)
    && (b.valueType == TypeSms ==> b.sms.Some?)
    && (b.valueType == TypeUrl ==> b.url.Some?)
    && (b.valueType == TypeWifi ==> b.wifi.Some?)
    && (b.valueType == TypeGeo ==> b.geoPoint.Some?)
    && (b.valueType == TypeContactInfo ==> b.contactInfo.Some?)
    && (b.valueType == TypeCalendarEvent ==> b.calendarEvent.Some?)
    && (b.valueType == TypeDriverLicense ==> b.driverLicense.Some?)
  }

  // ---------------------------------------------------------------------
  // The document shape

  const ScalarKeys: set<string> := {"points", "rawValue", "displayValue", "format", "valueType"}
  const PayloadKeys: set<string> :=
    {"email", "phone", "sms", "url", "wifi", "geoPoint", "contactInfo", "calendarEvent", "driverLicense"}

  /** The closed set of value types that carry a payload, and the key each payload is stored under. */
  function PayloadKey(valueType: int): (k: Option<string>)
    ensures k.Some? ==> k.value in PayloadKeys
  {
    if valueType == TypeEmail then Some("email")
    else if valueType == TypePhone then Some("phone")
    else if valueType == TypeSms then Some("sms")
    else if valueType == TypeUrl then Some("url")
    else if valueType == TypeWifi then Some("wifi")
    else if valueType == TypeGeo then Some("geoPoint")
    else if valueType == TypeContactInfo then Some("contactInfo")
    else if valueType == TypeCalendarEvent then Some("calendarEvent")
    else if valueType == TypeDriverLicense then Some("driverLicense")
    else None
  }

  /** An email payload; the same four keys are used for the emails of a contact. */
  function EmailFields(e: Email): (m: map<string, Doc>)
    ensures m.Keys == {"type", "address", "body", "subject"}
  {
    map["type" := Int(e.emailType)]["address" := StrDoc(e.address)]
       ["body" := StrDoc(e.body)]["subject" := StrDoc(e.subject)]
  }

  /** A phone payload; the same two keys are used for the phones of a contact. */
  function PhoneFields(p: Phone): (m: map<string, Doc>)
    ensures m.Keys == {"number", "type"}
  {
    map["number" := StrDoc(p.number)]["type" := Int(p.phoneType)]
  }

  function SmsFields(s: Sms): (m: map<string, Doc>)
    ensures m.Keys == {"message", "phoneNumber"}
  {
    map["message" := StrDoc(s.message)]["phoneNumber" := StrDoc(s.phoneNumber)]
  }

  function UrlFields(u: UrlBookmark): (m: map<string, Doc>)
    ensures m.Keys == {"title", "url"}
  {
    map["title" := StrDoc(u.title)]["url" := StrDoc(u.url)]
  }

  function WifiFields(w: WiFi): (m: map<string, Doc>)
    ensures m.Keys == {"ssid", "password", "encryptionType"}
  {
    map["ssid" := StrDoc(w.ssid)]["password" := StrDoc(w.password)]["encryptionType" := Int(w.encryptionType)]
  }

  function GeoFields(g: GeoPoint): (m: map<string, Doc>)
    ensures m.Keys == {"latitude", "longitude"}
    ensures m["latitude"] == Double(g.lat) && m["longitude"] == Double(g.lng)
  {
    map["latitude" := Double(g.lat)]["longitude" := Double(g.lng)]
  }

  /** An address of a contact: `addressLines` only when the array is not null, `type` always. */
  function AddressFields(a: Address): (m: map<string, Doc>)
    ensures "type" in m && m["type"] == Int(a.addressType)
    ensures "addressLines" in m <==> a.addressLines.Some?
    ensures a.addressLines.Some? ==> m["addressLines"] == StrListDoc(a.addressLines.value)
    ensures m.Keys <= {"addressLines", "type"}
  {
    var lines := if a.addressLines.Some? then map["addressLines" := StrListDoc(a.addressLines.value)] else map[];
    lines["type" := Int(a.addressType)]
  }

  /** The `name` map of a contact: empty when the native name is null, seven keys otherwise. */
  function NameFields(n: Option<PersonName>): (m: map<string, Doc>)
    ensures n.None? ==> m == map[]
    ensures n.Some? ==> m.Keys == {"formattedName", "first", "last", "middle", "prefix", "pronunciation", "suffix"}
  {
    match n
    case None => map[]
    case Some(p) =>
      map["formattedName" := StrDoc(p.formattedName)]["first" := StrDoc(p.first)]
         ["last" := StrDoc(p.last)]["middle" := StrDoc(p.middle)]["prefix" := StrDoc(p.prefix)]
         ["pronunciation" := StrDoc(p.pronunciation)]["suffix" := StrDoc(p.suffix)]
  }

  /** The `contactInfo` payload. */
  function ContactInfoFields(c: ContactInfo): (m: map<string, Doc>)
    ensures {"addresses", "emails", "name", "phones", "jobTitle", "organization"} <= m.Keys
    ensures "urls" in m <==> c.urls.Some?
    ensures m.Keys <= {"addresses", "emails", "name", "phones", "urls", "jobTitle", "organization"}
    ensures m["addresses"].List? && |m["addresses"].items| == |c.addresses|
    ensures forall i :: 0 <= i < |c.addresses| ==> m["addresses"].items[i] == Obj(AddressFields(c.addresses[i]))
    ensures m["emails"].List? && |m["emails"].items| == |c.emails|
    ensures forall i :: 0 <= i < |c.emails| ==> m["emails"].items[i] == Obj(EmailFields(c.emails[i]))
    ensures m["phones"].List? && |m["phones"].items| == |c.phones|
    ensures forall i :: 0 <= i < |c.phones| ==> m["phones"].items[i] == Obj(PhoneFields(c.phones[i]))
    ensures m["name"] == Obj(NameFields(c.name))
  {
    var addresses := seq(|c.addresses|, i requires 0 <= i < |c.addresses| => Obj(AddressFields(c.addresses[i])));
    var emails := seq(|c.emails|, i requires 0 <= i < |c.emails| => Obj(EmailFields(c.emails[i])));
    var phones := seq(|c.phones|, i requires 0 <= i < |c.phones| => Obj(PhoneFields(c.phones[i])));
    var m := map["addresses" := List(addresses)]["emails" := List(emails)]
                ["name" := Obj(NameFields(c.name))]["phones" := List(phones)];
    var m := if c.urls.Some? then m["urls" := StrListDoc(c.urls.value)] else m;
    m["jobTitle" := StrDoc(c.title)]["organization" := StrDoc(c.organization)]
  }

  /** The `calendarEvent` payload: `start` and `end` only when their sub-record is not null. */
  function CalendarFields(ev: CalendarEvent): (m: map<string, Doc>)
    ensures {"eventDescription", "location", "organizer", "status", "summary"} <= m.Keys
    ensures "start" in m <==> ev.start.Some?
    ensures "end" in m <==> ev.end.Some?
    ensures ev.start.Some? ==> m["start"] == StrDoc(ev.start.value.rawValue)
    ensures ev.end.Some? ==> m["end"] == StrDoc(ev.end.value.rawValue)
    ensures m.Keys <= {"eventDescription", "location", "organizer", "status", "summary", "start", "end"}
  {
    var m := map["eventDescription" := StrDoc(ev.description)]["location" := StrDoc(ev.location)]
               ["organizer" := StrDoc(ev.organizer)]["status" := StrDoc(ev.status)]
               ["summary" := StrDoc(ev.summary)];
    var m := if ev.start.Some? then m["start" := StrDoc(ev.start.value.rawValue)] else m;
    if ev.end.Some? then m["end" := StrDoc(ev.end.value.rawValue)] else m
  }

  function DriverLicenseFields(dl: DriverLicense): map<string, Doc>
  {
    map["firstName" := StrDoc(dl.firstName)]["middleName" := StrDoc(dl.middleName)]
               ["lastName" := StrDoc(dl.lastName)]["gender" := StrDoc(dl.gender)]
               ["addressCity" := StrDoc(dl.addressCity)]["addressStreet" := StrDoc(dl.addressStreet)]
               ["addressState" := StrDoc(dl.addressState)]["addressZip" := StrDoc(dl.addressZip)]
               ["birthDate" := StrDoc(dl.birthDate)]["documentType" := StrDoc(dl.documentType)]
               ["licenseNumber" := StrDoc(dl.licenseNumber)]["expiryDate" := StrDoc(dl.expiryDate)]
               ["issuingDate" := StrDoc(dl.issueDate)]["issuingCountry" := StrDoc(dl.issuingCountry)]
  }

  /** The driver-license payload has its fourteen keys; the issue date is stored as `issuingDate`. */
  lemma DriverLicenseShape(dl: DriverLicense)
    ensures var m := DriverLicenseFields(dl);
      && m.Keys == {"firstName", "middleName", "lastName", "gender", "addressCity", "addressStreet",
                    "addressState", "addressZip", "birthDate", "documentType", "licenseNumber",
                    "expiryDate", "issuingDate", "issuingCountry"}
      && m["issuingDate"] == StrDoc(dl.issueDate)
  {
  }

  /** The `switch (barcode.getValueType())`: at most one payload entry added to `m`. */
  function PutPayload(m: map<string, Doc>, b: Barcode): (m': map<string, Doc>)
    requires PayloadPresent(b)
    ensures m'.Keys == m.Keys + PayloadKeySet(b.valueType)
    ensures forall k :: k in m && k !in PayloadKeySet(b.valueType) ==> m'[k] == m[k]
    ensures b.valueType == TypeGeo ==> m'["geoPoint"] == Obj(GeoFields(b.geoPoint.value))
  {
    var t := b.valueType;
    if t == TypeEmail then m["email" := Obj(EmailFields(b.email.value))]
    else if t == TypePhone then m["phone" := Obj(PhoneFields(b.phone.value))]
    else if t == TypeSms then m["sms" := Obj(SmsFields(b.sms.value))]
    else if t == TypeUrl then m["url" := Obj(UrlFields(b.url.value))]
    else if t == TypeWifi then m["wifi" := Obj(WifiFields(b.wifi.value))]
    else if t == TypeGeo then m["geoPoint" := Obj(GeoFields(b.geoPoint.value))]
    else if t == TypeContactInfo then m["contactInfo" := Obj(ContactInfoFields(b.contactInfo.value))]
    else if t == TypeCalendarEvent then m["calendarEvent" := Obj(CalendarFields(b.calendarEvent.value))]
    else if t == TypeDriverLicense then m["driverLicense" := Obj(DriverLicenseFields(b.driverLicense.value))]
    else m
  }

  /** The payload key a value type adds, as a set (empty for a value type without payload). */
  function PayloadKeySet(valueType: int): set<string>
  {
    match PayloadKey(valueType)
    case None => {}
    case Some(k) => {k}
  }

  /** The key set of the map written for one barcode. */
  function BarcodeKeys(b: Barcode): set<string>
  {
    (if b.boundingBox.Some? then BoundsKeys else {}) + ScalarKeys + PayloadKeySet(b.valueType)
  }

  /** The map written for one barcode. */
  function BarcodeFields(b: Barcode): (m: map<string, Doc>)
    requires PayloadPresent(b)
    ensures m.Keys == BarcodeKeys(b)
  {
    var m := PutBounds(map[], b.boundingBox);
    var m := m["points" := CornerPointsDoc(b.cornerPoints)];
    var m := m["rawValue" := StrDoc(b.rawValue)]["displayValue" := StrDoc(b.displayValue)]
               ["format" := Int(b.format)]["valueType" := Int(b.valueType)];
    PutPayload(m, b)
  }

  /** The success document: one map per barcode. */
  function BarcodeListDoc(bs: seq<Barcode>): Doc
    requires forall i :: 0 <= i < |bs| ==> PayloadPresent(bs[i])
  {
    List(seq(|bs|, i requires 0 <= i < |bs| && PayloadPresent(bs[i]) => Obj(BarcodeFields(bs[i]))))
  }

  // ---------------------------------------------------------------------
  // The transcoding as the listener runs it

  /** The three loops of the `TYPE_CONTACT_INFO` case, then the remaining puts. */
  method ContactInfoPayload(c: ContactInfo) returns (typeValue: map<string, Doc>)
    ensures typeValue == ContactInfoFields(c)
  {
    var addresses: seq<Doc> := [];
    var i := 0;
    while i < |c.addresses|
      invariant 0 <= i <= |c.addresses| && |addresses| == i
      invariant forall j :: 0 <= j < i ==> addresses[j] == Obj(AddressFields(c.addresses[j]))
    {
      addresses := addresses + [Obj(AddressFields(c.addresses[i]))];
      i := i + 1;
    }
    assert addresses == seq(|c.addresses|, j requires 0 <= j < |c.addresses| => Obj(AddressFields(c.addresses[j])));
    typeValue := map["addresses" := List(addresses)];

    var emails: seq<Doc> := [];
    i := 0;
    while i < |c.emails|
      invariant 0 <= i <= |c.emails| && |emails| == i
      invariant forall j :: 0 <= j < i ==> emails[j] == Obj(EmailFields(c.emails[j]))
    {
      emails := emails + [Obj(EmailFields(c.emails[i]))];
      i := i + 1;
    }
    assert emails == seq(|c.emails|, j requires 0 <= j < |c.emails| => Obj(EmailFields(c.emails[j])));
    typeValue := typeValue["emails" := List(emails)];
    typeValue := typeValue["name" := Obj(NameFields(c.name))];

    var phones: seq<Doc> := [];
    i := 0;
    while i < |c.phones|
      invariant 0 <= i <= |c.phones| && |phones| == i
      invariant forall j :: 0 <= j < i ==> phones[j] == Obj(PhoneFields(c.phones[j]))
    {
      phones := phones + [Obj(PhoneFields(c.phones[i]))];
      i := i + 1;
    }
    assert phones == seq(|c.phones|, j requires 0 <= j < |c.phones| => Obj(PhoneFields(c.phones[j])));
    typeValue := typeValue["phones" := List(phones)];

    if c.urls.Some? {
      typeValue := typeValue["urls" := StrListDoc(c.urls.value)];
    }
    typeValue := typeValue["jobTitle" := StrDoc(c.title)];
    typeValue := typeValue["organization" := StrDoc(c.organization)];
  }

  /** The body of the per-barcode loop: `barcodeMap` filled put by put. */
  method TranscodeBarcode(b: Barcode) returns (barcodeMap: map<string, Doc>)
    requires PayloadPresent(b)
    ensures barcodeMap == BarcodeFields(b)
  {
    barcodeMap := PutBounds(map[], b.boundingBox);
    var points := CornerPointList(b.cornerPoints);
    barcodeMap := barcodeMap["points" := points];
    barcodeMap := barcodeMap["rawValue" := StrDoc(b.rawValue)];
    barcodeMap := barcodeMap["displayValue" := StrDoc(b.displayValue)];
    barcodeMap := barcodeMap["format" := Int(b.format)];
    barcodeMap := barcodeMap["valueType" := Int(b.valueType)];
    if b.valueType == TypeContactInfo {
      var typeValue := ContactInfoPayload(b.contactInfo.value);
      barcodeMap := barcodeMap["contactInfo" := Obj(typeValue)];
    } else {
      barcodeMap := PutPayload(barcodeMap, b);
    }
  }

  /** `onSuccess`: one map per native barcode, appended in order. */
  method TranscodeBarcodes(visionBarcodes: seq<Barcode>) returns (barcodes: Doc)
    requires forall i :: 0 <= i < |visionBarcodes| ==> PayloadPresent(visionBarcodes[i])
    ensures barcodes == BarcodeListDoc(visionBarcodes)
    ensures barcodes.List? && |barcodes.items| == |visionBarcodes|
    ensures forall i :: 0 <= i < |visionBarcodes| ==> barcodes.items[i] == Obj(BarcodeFields(visionBarcodes[i]))
  {
    var maps: seq<Doc> := [];
    var i := 0;
    while i < |visionBarcodes|
      invariant 0 <= i <= |visionBarcodes| && |maps| == i
      invariant forall j :: 0 <= j < i ==> maps[j] == Obj(BarcodeFields(visionBarcodes[j]))
    {
      var barcodeMap := TranscodeBarcode(visionBarcodes[i]);
      maps := maps + [Obj(barcodeMap)];
      i := i + 1;
    }
    barcodes := List(maps);
  }

  // ---------------------------------------------------------------------
  // Properties

  /** The three groups of barcode keys are disjoint. */
  lemma KeyGroupsDisjoint()
    ensures BoundsKeys !! ScalarKeys && BoundsKeys !! PayloadKeys && ScalarKeys !! PayloadKeys
  {
  }

  /** `left`, `top`, `width`, `height` are present exactly when the bounding box is not null. */
  lemma BarcodeBoundsPresence(b: Barcode)
    requires PayloadPresent(b)
    ensures forall k :: k in BoundsKeys ==> (k in BarcodeFields(b) <==> b.boundingBox.Some?)
    ensures b.boundingBox.Some? ==>
      forall k :: k in BoundsKeys ==> BarcodeFields(b)[k] == BoundsFields(b.boundingBox.value)[k]
  {
    KeyGroupsDisjoint();
  }

  /** `points`, `rawValue`, `displayValue`, `format`, `valueType` are always present, with their values. */
  lemma BarcodeAlwaysPresent(b: Barcode)
    requires PayloadPresent(b)
    ensures var m := BarcodeFields(b);
      && ScalarKeys <= m.Keys
      && m["points"] == CornerPointsDoc(b.cornerPoints)
      && m["rawValue"] == StrDoc(b.rawValue) && m["displayValue"] == StrDoc(b.displayValue)
      && m["format"] == Int(b.format) && m["valueType"] == Int(b.valueType)
  {
    KeyGroupsDisjoint();
  }

  /**
   * The payload is selected by the value type: a payload key is present
   * exactly when it is the key of the barcode's value type, and no key
   * outside the documented ones is written.
   */
  lemma BarcodePayloadSelection(b: Barcode)
    requires PayloadPresent(b)
    ensures forall k :: k in PayloadKeys ==> (k in BarcodeFields(b) <==> PayloadKey(b.valueType) == Some(k))
    ensures BarcodeFields(b).Keys <= BoundsKeys + ScalarKeys + PayloadKeys
  {
    KeyGroupsDisjoint();
  }

  /** A geo barcode carries `geoPoint` with both coordinates, and no other payload. */
  lemma GeoBarcodeShape(b: Barcode)
    requires PayloadPresent(b) && b.valueType == TypeGeo
    ensures var m := BarcodeFields(b);
      && "geoPoint" in m && m["geoPoint"] == Obj(GeoFields(b.geoPoint.value))
      && m["geoPoint"].fields.Keys == {"latitude", "longitude"}
      && forall k :: k in PayloadKeys && k != "geoPoint" ==> k !in m
  {
    BarcodePayloadSelection(b);
    assert PayloadKey(b.valueType) == Some("geoPoint");
  }

  /** A value type without a payload (ISBN, product, text, unknown, ...) adds no payload key. */
  lemma UnknownValueTypeHasNoPayload(b: Barcode)
    requires PayloadPresent(b) && PayloadKey(b.valueType).None?
    ensures BarcodeFields(b).Keys * PayloadKeys == {}
  {
    BarcodePayloadSelection(b);
  }

  /** Two different payload keys are never both present. */
  lemma AtMostOnePayload(b: Barcode, k1: string, k2: string)
    requires PayloadPresent(b)
    requires k1 in PayloadKeys && k2 in PayloadKeys && k1 != k2
    ensures !(k1 in BarcodeFields(b) && k2 in BarcodeFields(b))
  {
    BarcodePayloadSelection(b);
  }

  // ---------------------------------------------------------------------
  // Options (`parseOptions`)

  /**
   * `parseOptions`: the scanner is configured with the `barcodeFormats`
   * bit set alone; a missing or null entry fails to unbox, an entry that is
   * not an `Integer` fails the cast.
   */
  function ParseOptions(optionsData: map<string, Doc>): (r: Result<int, JavaException>)
    ensures r.Ok? <==>
      "barcodeFormats" in optionsData && optionsData["barcodeFormats"].Int? && InIntRange(optionsData["barcodeFormats"].i)
    ensures r.Ok? ==> r.value == optionsData["barcodeFormats"].i
    ensures r.Err? ==>
      (r.error == NullPointerException <==> Get(optionsData, "barcodeFormats") == Null)
  {
    UnboxInteger(Get(optionsData, "barcodeFormats"))
  }
}
