/**
 * The financier's contract form: the lessee address read from the stored
 * company-register data, the initial values of the form, the foldable
 * sections and the list of leased objects, which never becomes empty.
 */
module ContractForm {
  import opened Common

  /** The `type` of a register address: a number, or a text. */
  datatype AddressType = TypeNumber(n: int) | TypeText(s: string)

  /** One entry of `addresses` in the stored register data; every field may be missing. */
  datatype RegisterAddress = RegisterAddress(
    addrType: Option<AddressType>,
    street: Option<string>,
    streetAddress: Option<string>,
    postCode: Option<string>,
    postalCode: Option<string>,
    city: Option<string>,
    postOffice: Option<string>)

  /** The decoded register data: its `addresses`, which may be missing. */
  datatype RegisterData = RegisterData(addresses: Option<seq<RegisterAddress>>)

  /** What `JSON.parse` gives: the data, or an exception. */
  datatype Parsed = ParseError | Value(data: RegisterData)

  /** The stored register data: missing (or any other falsy value), a JSON text, or an object. */
  datatype YtjData = Missing | Text(json: string) | Object(data: RegisterData)

  /** A JavaScript falsy value: missing, or the empty text. */
  predicate Falsy(d: YtjData)
  {
    d.Missing? || (d.Text? && d.json == "")
  }

  /** `application.extra_data?.ytj_data || application.ytj_data`. */
  function ChooseYtjData(extra: YtjData, direct: YtjData): (d: YtjData)
    ensures !Falsy(extra) ==> d == extra
    ensures Falsy(extra) ==> d == direct
  {
    if Falsy(extra) then direct else extra
  }

  datatype Address = Address(street: string, postalCode: string, city: string)

  const EmptyAddress: Address := Address("", "", "")

  /** `a.type?.toString().toLowerCase().includes('posti') || a.type === 2`. */
  predicate IsPostal(a: RegisterAddress)
  {
    match a.addrType
    case None => false
    case Some(TypeText(s)) => Contains(ToLower(s), "posti")
    case Some(TypeNumber(n)) => Contains(ToLower(IntToString(n)), "posti") || n == 2
  }

  /** The position of the first postal address, or 0 when there is none. */
  function PostalIndex(addresses: seq<RegisterAddress>): (i: nat)
    requires |addresses| > 0
    ensures i < |addresses|
    ensures IsPostal(addresses[i]) ==> forall k :: 0 <= k < i ==> !IsPostal(addresses[k])
    ensures !IsPostal(addresses[i]) ==> i == 0 && forall k :: 0 <= k < |addresses| ==> !IsPostal(addresses[k])
  {
    if IsPostal(addresses[0]) || |addresses| == 1 then 0
    else
      var j := PostalIndex(addresses[1..]);
      if IsPostal(addresses[1..][j]) then j + 1 else 0
  }

  /** The fields of the chosen address, each with its fallback and then ''. */
  function AddressFields(a: RegisterAddress): (r: Address)
    ensures r.street == OrElse(a.street, OrElse(a.streetAddress, ""))
    ensures r.postalCode == OrElse(a.postCode, OrElse(a.postalCode, ""))
    ensures r.city == OrElse(a.city, OrElse(a.postOffice, ""))
  {
    Address(OrElse(a.street, OrElse(a.streetAddress, "")),
            OrElse(a.postCode, OrElse(a.postalCode, "")),
            OrElse(a.city, OrElse(a.postOffice, "")))
  }

  /** The address list of parsed data, `data.addresses || []`; `None` where the parse throws. */
  function AddressesOf(d: YtjData, parse: string -> Parsed): Option<seq<RegisterAddress>>
    requires !Falsy(d)
  {
    var data := if d.Text? then parse(d.json) else Value(d.data);
    if data.ParseError? then None else Some(data.data.addresses.GetOr([]))
  }

  /**
   * `getYtjAddress`: empty fields for missing data, for a parse error and
   * for an empty address list; otherwise the fields of the first postal
   * address, or of the first address when none is postal.
   */
  function GetYtjAddress(d: YtjData, parse: string -> Parsed): (r: Address)
    ensures Falsy(d) ==> r == EmptyAddress
    ensures !Falsy(d) && AddressesOf(d, parse).None? ==> r == EmptyAddress
    ensures !Falsy(d) && AddressesOf(d, parse) == Some([]) ==> r == EmptyAddress
    ensures !Falsy(d) && AddressesOf(d, parse).Some? && |AddressesOf(d, parse).value| > 0 ==>
              var addresses := AddressesOf(d, parse).value;
              (exists i :: 0 <= i < |addresses| && IsPostal(addresses[i]))
                ==> exists i :: 0 <= i < |addresses| && IsPostal(addresses[i]) && r == AddressFields(addresses[i])
                               && forall k :: 0 <= k < i ==> !IsPostal(addresses[k])
    ensures !Falsy(d) && AddressesOf(d, parse).Some? && |AddressesOf(d, parse).value| > 0 ==>
              var addresses := AddressesOf(d, parse).value;
              (forall k :: 0 <= k < |addresses| ==> !IsPostal(addresses[k])) ==> r == AddressFields(addresses[0])
  {
    if Falsy(d) then EmptyAddress
    else
      var addresses := AddressesOf(d, parse);
      if addresses.None? || |addresses.value| == 0 then EmptyAddress
      else AddressFields(addresses.value[PostalIndex(addresses.value)])
  }

  /** Data stored as a JSON text reads as the object it encodes. */
  lemma TextReadsAsObject(json: string, data: RegisterData, parse: string -> Parsed)
    requires json != "" && parse(json) == Value(data)
    ensures GetYtjAddress(Text(json), parse) == GetYtjAddress(Object(data), parse)
  {
  }

  // ---------------------------------------------------------------------
  // The initial form
  // ---------------------------------------------------------------------

  /** The fields of the application the form starts from. */
  datatype FormApplication = FormApplication(
    id: int,
    companyName: string,
    businessId: string,
    streetAddress: Option<string>,
    postalCode: Option<string>,
    city: Option<string>,
    contactPerson: Option<string>,
    contactPhone: Option<string>,
    contactEmail: string,
    equipmentSupplier: Option<string>,
    applicationType: string,
    equipmentDescription: string,
    equipmentSerialNumber: Option<string>,
    yearModel: Option<int>)

  /** The fields of the accepted offer the form reads. */
  datatype AcceptedOffer = AcceptedOffer(id: int, upfrontPayment: real, monthlyPayment: real, termMonths: int, residualValue: real)

  /** An object of the lease. */
  datatype LeaseObject = LeaseObject(isNew: bool, brandModel: string, accessories: string, serialNumber: string,
                                     yearModel: Option<int>)

  /** The form's values apart from those that start empty or undefined. */
  datatype FormData = FormData(
    applicationId: int,
    offerId: Option<int>,
    lesseeCompanyName: string,
    lesseeBusinessId: string,
    lesseeStreetAddress: string,
    lesseePostalCode: string,
    lesseeCity: string,
    lesseeCountry: string,
    lesseeContactPerson: string,
    lesseePhone: string,
    lesseeEmail: string,
    lesseeTaxCountry: string,
    lessorCompanyName: string,
    sellerCompanyName: string,
    sellerTaxCountry: string,
    leaseObjects: seq<LeaseObject>,
    usageLocation: string,
    deliveryMethod: string,
    advancePayment: real,
    monthlyRent: real,
    rentInstallmentsCount: int,
    rentInstallmentsStart: int,
    rentInstallmentsEnd: int,
    residualValue: real,
    processingFee: real,
    arrangementFee: real,
    invoicingMethod: string,
    leasePeriodMonths: int)

  /** `x || d` on a number: zero counts as missing. */
  function RealOr(x: real, d: real): (r: real)
    ensures x != 0.0 ==> r == x
    ensures x == 0.0 ==> r == d
  {
    if x != 0.0 then x else d
  }

  function IntOr(x: int, d: int): (r: int)
    ensures x != 0 ==> r == x
    ensures x == 0 ==> r == d
  {
    if x != 0 then x else d
  }

  /** The term a missing (or zero) accepted term falls back to. */
  const DefaultTermMonths: int := 60

  function OfferTerm(offer: Option<AcceptedOffer>): (t: int)
    ensures offer.None? ==> t == DefaultTermMonths
    ensures offer.Some? && offer.value.termMonths != 0 ==> t == offer.value.termMonths
    ensures offer.Some? && offer.value.termMonths == 0 ==> t == DefaultTermMonths
  {
    if offer.Some? then IntOr(offer.value.termMonths, DefaultTermMonths) else DefaultTermMonths
  }

  function OfferAmount(offer: Option<AcceptedOffer>, amount: AcceptedOffer -> real): (r: real)
    ensures offer.None? ==> r == 0.0
    ensures offer.Some? ==> r == amount(offer.value)
  {
    if offer.Some? then RealOr(amount(offer.value), 0.0) else 0.0
  }

  function Upfront(o: AcceptedOffer): real { o.upfrontPayment }
  function Monthly(o: AcceptedOffer): real { o.monthlyPayment }
  function Residual(o: AcceptedOffer): real { o.residualValue }

  /** The one object the list starts with, described after the application. */
  function FirstLeaseObject(app: FormApplication): (o: LeaseObject)
    ensures o.isNew <==> app.applicationType == "LEASING"
    ensures o.brandModel == app.equipmentDescription && o.accessories == ""
    ensures o.serialNumber == OrElse(app.equipmentSerialNumber, "")
    ensures o.yearModel == if app.yearModel.Some? && app.yearModel.value != 0 then app.yearModel else None
  {
    LeaseObject(app.applicationType == "LEASING", app.equipmentDescription, "", OrElse(app.equipmentSerialNumber, ""),
                if app.yearModel.Some? && app.yearModel.value != 0 then app.yearModel else None)
  }

  /**
   * The initial `formData`: the lessee's address from the register, then
   * from the application, then ''; the rent terms from the accepted offer,
   * with a 60-month term and zero amounts without one; a fee of 500 and an
   * arrangement fee of 10.
   */
  function InitialForm(app: FormApplication, offer: Option<AcceptedOffer>, ytj: Address): (f: FormData)
    ensures f.applicationId == app.id
    ensures f.offerId == if offer.Some? then Some(offer.value.id) else None
    ensures f.lesseeStreetAddress == StrOr(ytj.street, OrElse(app.streetAddress, ""))
    ensures f.lesseePostalCode == StrOr(ytj.postalCode, OrElse(app.postalCode, ""))
    ensures f.lesseeCity == StrOr(ytj.city, OrElse(app.city, ""))
    ensures ytj.street != "" ==> f.lesseeStreetAddress == ytj.street
    ensures f.leaseObjects == [FirstLeaseObject(app)]
    ensures offer.None? ==> f.rentInstallmentsCount == 60 && f.rentInstallmentsEnd == 60 && f.leasePeriodMonths == 60
    ensures offer.None? ==> f.advancePayment == 0.0 && f.monthlyRent == 0.0 && f.residualValue == 0.0
    ensures f.rentInstallmentsCount == f.rentInstallmentsEnd == f.leasePeriodMonths == OfferTerm(offer)
    ensures f.rentInstallmentsStart == 1
    ensures f.processingFee == 500.0 && f.arrangementFee == 10.0
  {
    FormData(
      app.id,
      if offer.Some? then Some(offer.value.id) else None,
      app.companyName,
      app.businessId,
      StrOr(ytj.street, OrElse(app.streetAddress, "")),
      StrOr(ytj.postalCode, OrElse(app.postalCode, "")),
      StrOr(ytj.city, OrElse(app.city, "")),
      "Finland",
      OrElse(app.contactPerson, ""),
      OrElse(app.contactPhone, ""),
      app.contactEmail,
      "Suomi",
      "Rahoittaja Oy",
      OrElse(app.equipmentSupplier, ""),
      "Suomi",
      [FirstLeaseObject(app)],
      "Suomi",
      "Toimitus",
      OfferAmount(offer, Upfront),
      OfferAmount(offer, Monthly),
      OfferTerm(offer),
      1,
      OfferTerm(offer),
      OfferAmount(offer, Residual),
      500.0,
      10.0,
      "E-Lasku",
      OfferTerm(offer))
  }

  // ---------------------------------------------------------------------
  // Sections
  // ---------------------------------------------------------------------

  datatype Section = Lessee | Lessor | Seller | Objects | Delivery | Rent | Period | Special

  const InitiallyExpanded: seq<Section> := [Lessee, Lessor, Rent]

  function Without(sections: seq<Section>, s: Section): (r: seq<Section>)
    ensures forall x :: x in r <==> x in sections && x != s
    ensures s !in sections ==> r == sections
  {
    if |sections| == 0 then []
    else if sections[0] == s then Without(sections[1..], s)
    else [sections[0]] + Without(sections[1..], s)
  }

  /** `toggleSection`: an open section closes (every copy), a closed one opens at the end. */
  function Toggle(sections: seq<Section>, s: Section): (r: seq<Section>)
    ensures s in sections ==> s !in r
    ensures s !in sections ==> s in r
    ensures forall x :: x != s ==> (x in r <==> x in sections)
  {
    if s in sections then Without(sections, s) else sections + [s]
  }

  /**
   * Toggling twice opens exactly the sections that were open; it gives back
   * the same list when the section was closed, while a section that was
   * open comes back at the end of the list.
   */
  lemma ToggleTwice(sections: seq<Section>, s: Section)
    ensures forall x :: x in Toggle(Toggle(sections, s), s) <==> x in sections
    ensures s !in sections ==> Toggle(Toggle(sections, s), s) == sections
  {
    if s !in sections {
      assert Without(sections + [s], s) == sections by {
        WithoutAppend(sections, s);
      }
    }
  }

  lemma {:induction false} WithoutAppend(sections: seq<Section>, s: Section)
    requires s !in sections
    ensures Without(sections + [s], s) == sections
  {
    if |sections| > 0 {
      assert (sections + [s])[1..] == sections[1..] + [s];
      WithoutAppend(sections[1..], s);
    } else {
      assert sections + [s] == [s];
    }
  }

  // ---------------------------------------------------------------------
  // Lease objects
  // ---------------------------------------------------------------------

  /** A change of one field of a lease object. */
  datatype LeaseField =
    | IsNew(isNew: bool)
    | BrandModel(brandModel: string)
    | Accessories(accessories: string)
    | SerialNumber(serialNumber: string)
    | YearModel(yearModel: Option<int>)

  /** `{ ...o, [field]: value }`: only the named field changes. */
  function WithField(o: LeaseObject, change: LeaseField): (r: LeaseObject)
    ensures change.IsNew? ==> r == o.(isNew := change.isNew)
    ensures change.BrandModel? ==> r == o.(brandModel := change.brandModel)
    ensures change.Accessories? ==> r == o.(accessories := change.accessories)
    ensures change.SerialNumber? ==> r == o.(serialNumber := change.serialNumber)
    ensures change.YearModel? ==> r == o.(yearModel := change.yearModel)
  {
    match change
    case IsNew(b) => o.(isNew := b)
    case BrandModel(s) => o.(brandModel := s)
    case Accessories(s) => o.(accessories := s)
    case SerialNumber(s) => o.(serialNumber := s)
    case YearModel(y) => o.(yearModel := y)
  }

  /** The same field set twice keeps the last value. */
  lemma WithFieldLastWins(o: LeaseObject, first: LeaseField, second: LeaseField)
    requires first.IsNew? == second.IsNew? && first.BrandModel? == second.BrandModel?
    requires first.Accessories? == second.Accessories? && first.SerialNumber? == second.SerialNumber?
    ensures WithField(WithField(o, first), second) == WithField(o, second)
  {
  }

  /**
   * `handleLeaseObjectChange`: the list is copied into a fresh array and
   * the object at the index is replaced by one with the field changed.
   */
  method ChangeLeaseObject(objects: seq<LeaseObject>, index: nat, change: LeaseField) returns (r: seq<LeaseObject>)
    requires index < |objects|
    ensures |r| == |objects|
    ensures r[index] == WithField(objects[index], change)
    ensures forall k :: 0 <= k < |objects| && k != index ==> r[k] == objects[k]
  {
    var a := new LeaseObject[|objects|](k requires 0 <= k < |objects| => objects[k]);
    a[index] := WithField(a[index], change);
    r := a[..];
  }

  const BlankLeaseObject: LeaseObject := LeaseObject(false, "", "", "", None)

  /** `addLeaseObject`: one blank object at the end. */
  function AddLeaseObject(objects: seq<LeaseObject>): (r: seq<LeaseObject>)
    ensures |r| == |objects| + 1 && r[..|objects|] == objects && r[|objects|] == BlankLeaseObject
  {
    objects + [BlankLeaseObject]
  }

  /** `removeLeaseObject`: drops the object at the index, but only while more than one is listed. */
  function RemoveLeaseObject(objects: seq<LeaseObject>, index: int): (r: seq<LeaseObject>)
    ensures |objects| <= 1 ==> r == objects
    ensures |objects| > 1 && 0 <= index < |objects| ==> r == objects[..index] + objects[index + 1..]
    ensures |objects| > 1 && !(0 <= index < |objects|) ==> r == objects
    ensures |objects| > 0 ==> |r| > 0
  {
    if |objects| > 1 && 0 <= index < |objects| then objects[..index] + objects[index + 1..] else objects
  }

  /** One edit of the list through the form's buttons and inputs. */
  datatype ListEdit = Add | Remove(index: int) | Change(at: nat, change: LeaseField)

  function ApplyEdit(objects: seq<LeaseObject>, e: ListEdit): (r: seq<LeaseObject>)
    ensures e.Add? ==> r == AddLeaseObject(objects)
    ensures e.Remove? ==> r == RemoveLeaseObject(objects, e.index)
    ensures e.Change? && e.at < |objects| ==> r == objects[e.at := WithField(objects[e.at], e.change)]
    ensures e.Change? && e.at >= |objects| ==> r == objects
  {
    match e
    case Add => AddLeaseObject(objects)
    case Remove(i) => RemoveLeaseObject(objects, i)
    case Change(i, c) => if i < |objects| then objects[i := WithField(objects[i], c)] else objects
  }

  function ApplyEdits(objects: seq<LeaseObject>, edits: seq<ListEdit>): seq<LeaseObject>
    decreases |edits|
  {
    if |edits| == 0 then objects else ApplyEdits(ApplyEdit(objects, edits[0]), edits[1..])
  }

  /** Starting from the form's one object, no sequence of edits empties the list. */
  lemma {:induction false} NeverEmpty(objects: seq<LeaseObject>, edits: seq<ListEdit>)
    requires |objects| > 0
    ensures |ApplyEdits(objects, edits)| > 0
    decreases |edits|
  {
    if |edits| > 0 {
      NeverEmpty(ApplyEdit(objects, edits[0]), edits[1..]);
    }
  }

  /** The initial form lists one object, so it keeps at least one. */
  lemma FormKeepsAnObject(app: FormApplication, offer: Option<AcceptedOffer>, ytj: Address, edits: seq<ListEdit>)
    ensures |ApplyEdits(InitialForm(app, offer, ytj).leaseObjects, edits)| > 0
  {
    NeverEmpty(InitialForm(app, offer, ytj).leaseObjects, edits);
  }
}
