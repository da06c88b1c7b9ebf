/**
 * The company-register (YTJ, PRH open data v3) client: shaping the company
 * list a name search returns, parsing one company's details, and two
 * display helpers. The HTTP request is not part of this model; every
 * operation starts from the decoded `companies` array.
 *
 * JSON values are modelled by what the code tests of them: a field may be
 * missing (`undefined`), `null`, or present, and `typeof x === 'object'` is
 * true of objects and of `null` alike. Reading a property of `null` throws,
 * and each operation catches that and returns its empty answer.
 */
module Ytj {
  import opened Common
  import Sorting

  /** A date-like field: missing, `null`, or a string. */
  datatype Stamp = Missing | Null | Given(text: string)

  /** `!x` of a stamp. */
  predicate StampFalsy(s: Stamp)
  {
    !(s.Given? && s.text != "")
  }

  /** A `type` field, which the register gives as a number or as text. */
  datatype Kind = NoKind | Number(n: int) | Text(s: string)

  datatype NameEntry = NameEntry(name: string, kind: Kind, endDate: Stamp)

  /** `company.businessId`: an object with `value`, `null`, a bare string, or missing. */
  datatype BusinessIdField =
    | IdObject(value: Option<string>, registrationDate: Option<string>)
    | IdNull
    | IdText(text: string)
    | IdMissing

  /** An entry of `addr.postOffices`. */
  datatype PostOffice = OfficeObject(name: Option<string>) | OfficeNull | OfficeText(text: string)

  datatype RawAddress = RawAddress(
    street: Option<string>,
    buildingNumber: Option<string>,
    postCode: Option<string>,
    postOffices: Option<seq<PostOffice>>)

  datatype RawContact = RawContact(kind: string, value: Option<string>, endDate: Stamp)

  /** A company situation (liquidation, bankruptcy, ...). */
  datatype Situation = Situation(kind: string, endDate: Stamp)

  /** One element of the response's `companies` array; absent arrays are empty. */
  /**
   * A value the details copy with `x || ''`: text, or another truthy JSON
   * value (an array or an object), which is copied as it is.
   */
  datatype Loose = LooseText(text: string) | LooseOther

  /** `company.mainBusinessLine`; a missing field is `None`. */
  datatype RawBusinessLine = RawBusinessLine(kind: Option<Loose>, descriptions: Option<Loose>)

  /** An entry of a company form's `descriptions` array. */
  datatype FormDescription = DescObject(name: Option<Loose>) | DescNull | DescText(text: string)

  /** An entry of `company.companyForms`; `descriptions` is `None` when it is not an array. */
  datatype RawCompanyForm = RawCompanyForm(kind: Option<Loose>, descriptions: Option<seq<FormDescription>>)

  datatype RawCompany = RawCompany(
    businessId: BusinessIdField,
    names: Option<seq<NameEntry>>,
    name: Option<string>,
    registrationDate: Option<string>,
    addresses: seq<RawAddress>,
    contactDetails: seq<RawContact>,
    companySituations: seq<Situation>,
    tradeRegisterStatus: Kind,
    mainBusinessLine: Option<RawBusinessLine>,
    companyForms: seq<Option<RawCompanyForm>>)

  datatype SearchResult = SearchResult(businessId: string, name: string, registrationDate: Option<string>, companyForm: string)

  datatype Address = Address(street: string, postCode: string, city: string, country: string)

  datatype Details = Details(
    businessId: Option<string>,
    name: string,
    registrationDate: Option<string>,
    companyForm: Loose,
    companyFormCode: Loose,
    businessLine: Loose,
    businessLineCode: Loose,
    addresses: seq<Address>,
    phone: Option<string>,
    website: Option<string>,
    auxiliaryNames: seq<string>,
    status: string,
    liquidations: seq<Situation>)

  // ---------------------------------------------------------------------
  // Names
  // ---------------------------------------------------------------------

  /** The official, current name: type 1 and no end date. */
  predicate IsCurrentOfficial(n: NameEntry)
  {
    n.kind == Number(1) && StampFalsy(n.endDate)
  }

  /** `names.find(...)`: the index of the first current official name, if any. */
  function FindCurrentOfficial(names: seq<NameEntry>): (k: Option<nat>)
    ensures k.Some? ==> k.value < |names| && IsCurrentOfficial(names[k.value])
                        && forall j :: 0 <= j < k.value ==> !IsCurrentOfficial(names[j])
    ensures k.None? ==> forall j :: 0 <= j < |names| ==> !IsCurrentOfficial(names[j])
  {
    if |names| == 0 then None
    else if IsCurrentOfficial(names[0]) then Some(0)
    else match FindCurrentOfficial(names[1..])
      case Some(k) => Some(k + 1)
      case None => None
  }

  /** `parseCompanyName`. */
  function ParseCompanyName(names: seq<NameEntry>): (name: string)
    ensures |names| == 0 ==> name == ""
    ensures (exists j :: 0 <= j < |names| && IsCurrentOfficial(names[j])) ==>
              exists j :: 0 <= j < |names| && IsCurrentOfficial(names[j]) && name == names[j].name
                          && forall i :: 0 <= i < j ==> !IsCurrentOfficial(names[i])
    ensures |names| > 0 && (forall j :: 0 <= j < |names| ==> !IsCurrentOfficial(names[j])) ==>
              name == names[0].name
  {
    if |names| == 0 then ""
    else match FindCurrentOfficial(names)
      case Some(k) => names[k].name
      case None => names[0].name
  }

  /** The display name of a company: from its `names` array when it has one, else `name || ''`. */
  function CompanyName(c: RawCompany): string
  {
    if c.names.Some? then ParseCompanyName(c.names.value) else OrElse(c.name, "")
  }

  /** `businessIdValue`; `None` stands for `undefined`. Undefined for `null`, which throws. */
  function BusinessIdValue(f: BusinessIdField): Option<string>
    requires !f.IdNull?
  {
    match f
    case IdObject(v, _) => v
    case IdText(t) => Some(t)
    case IdMissing => None
  }

  /** `regDate` / `registrationDate`. */
  function RegistrationDate(c: RawCompany): Option<string>
    requires !c.businessId.IdNull?
  {
    match c.businessId
    case IdObject(_, d) => d
    case _ => Some(OrElse(c.registrationDate, ""))
  }

  // ---------------------------------------------------------------------
  // Search result shaping
  // ---------------------------------------------------------------------

  const MinQueryLength: nat := 3
  const MaxResults: nat := 10

  /** The mapping step of `searchCompanies`. */
  function ToSearchResult(c: RawCompany): SearchResult
    requires !c.businessId.IdNull?
  {
    SearchResult(OrElse(BusinessIdValue(c.businessId), ""), CompanyName(c), RegistrationDate(c), "")
  }

  /** The `filter` step: both name and business id are non-empty. */
  predicate Listable(r: SearchResult)
  {
    r.name != "" && r.businessId != ""
  }

  /** Map, then filter, keeping the order. */
  function Candidates(companies: seq<RawCompany>): (rs: seq<SearchResult>)
    requires forall c :: c in companies ==> !c.businessId.IdNull?
    ensures forall r :: r in rs ==> Listable(r)
    ensures |rs| <= |companies|
    ensures |companies| == 1 ==>
              rs == if Listable(ToSearchResult(companies[0])) then [ToSearchResult(companies[0])] else []
  {
    if |companies| == 0 then []
    else
      var r := ToSearchResult(companies[0]);
      (if Listable(r) then [r] else []) + Candidates(companies[1..])
  }

  /** Mapping and filtering a concatenation gives the concatenation of the two results. */
  lemma {:induction false} CandidatesAppend(a: seq<RawCompany>, b: seq<RawCompany>)
    requires forall c :: c in a ==> !c.businessId.IdNull?
    requires forall c :: c in b ==> !c.businessId.IdNull?
    ensures forall c :: c in a + b ==> !c.businessId.IdNull?
    ensures Candidates(a + b) == Candidates(a) + Candidates(b)
  {
    if |a| == 0 {
      assert a + b == b;
    } else {
      assert (a + b)[0] == a[0];
      assert (a + b)[1..] == a[1..] + b;
      CandidatesAppend(a[1..], b);
    }
  }

  /** Whether the lower-cased name starts with the lower-cased query. */
  predicate NameStartsWith(r: SearchResult, queryLower: string)
  {
    StartsWith(ToLower(r.name), queryLower)
  }

  /**
   * The search comparator as a "no later than" relation: names starting
   * with the query first; otherwise by the collation `collate`, where
   * `collate(a, b)` means `a.localeCompare(b, 'fi') <= 0`.
   */
  function SearchOrder(queryLower: string, collate: (string, string) -> bool): (SearchResult, SearchResult) -> bool
  {
    (a: SearchResult, b: SearchResult) =>
      var aStarts := NameStartsWith(a, queryLower);
      var bStarts := NameStartsWith(b, queryLower);
      (aStarts && !bStarts) || (aStarts == bStarts && collate(a.name, b.name))
  }

  /** A collation that is a total preorder makes the search comparator one. */
  lemma SearchOrderIsTotalPreorder(queryLower: string, collate: (string, string) -> bool)
    requires Sorting.TotalPreorder(collate)
    ensures Sorting.TotalPreorder(SearchOrder(queryLower, collate))
  {
    var le := SearchOrder(queryLower, collate);
    forall a, b ensures le(a, b) || le(b, a) {
      assert collate(a.name, b.name) || collate(b.name, a.name);
    }
    forall a, b, c | le(a, b) && le(b, c) ensures le(a, c) {
      if NameStartsWith(a, queryLower) == NameStartsWith(c, queryLower) {
        assert collate(a.name, b.name) && collate(b.name, c.name);
      }
    }
  }

  /**
   * `searchCompanies` after the fetch: at most ten listable results, in
   * search order, prefix matches before the rest, each taken from the
   * response. A `null` business id anywhere throws inside `map`, which the
   * function catches, answering [].
   */
  method ShapeSearchResults(query: string, companies: seq<RawCompany>, collate: (string, string) -> bool)
    returns (results: seq<SearchResult>)
    requires Sorting.TotalPreorder(collate)
    ensures |query| < MinQueryLength ==> results == []
    ensures (exists c :: c in companies && c.businessId.IdNull?) ==> results == []
    ensures |results| <= MaxResults
    ensures forall r :: r in results ==> Listable(r)
    ensures forall i, j :: 0 <= i < j < |results| && !NameStartsWith(results[i], ToLower(query)) ==>
              !NameStartsWith(results[j], ToLower(query))
    ensures Sorting.Sorted(results, SearchOrder(ToLower(query), collate))
    ensures (forall c :: c in companies ==> !c.businessId.IdNull?) ==>
              multiset(results) <= multiset(Candidates(companies))
    ensures |query| >= MinQueryLength && (forall c :: c in companies ==> !c.businessId.IdNull?) ==>
              |results| == if |Candidates(companies)| < MaxResults then |Candidates(companies)| else MaxResults
    ensures (forall c :: c in companies ==> !c.businessId.IdNull?) ==>
              forall r, c :: r in results && c in multiset(Candidates(companies)) - multiset(results) ==>
                SearchOrder(ToLower(query), collate)(r, c)
  {
    if |query| < MinQueryLength || |companies| == 0 {
      return [];
    }
    if exists c :: c in companies && c.businessId.IdNull? {
      return [];
    }
    var queryLower := ToLower(query);
    var le := SearchOrder(queryLower, collate);
    SearchOrderIsTotalPreorder(queryLower, collate);
    var candidates := Candidates(companies);
    var sorted := Sorting.SortSeq(candidates, le);
    forall r | r in sorted ensures Listable(r) {
      assert r in multiset(candidates);
    }
    var cut := if |sorted| <= MaxResults then |sorted| else MaxResults;
    results := sorted[..cut];
    Sorting.SortedCut(sorted, cut, le);
    forall i, j | 0 <= i < j < |results| && !NameStartsWith(results[i], queryLower)
      ensures !NameStartsWith(results[j], queryLower)
    {
      assert le(results[i], results[j]);
    }
  }

  // ---------------------------------------------------------------------
  // Company details
  // ---------------------------------------------------------------------

  const PhoneKinds: set<string> := {"Puhelin", "Matkapuhelin"}
  const WebsiteKind: string := "Kotisivun www-osoite"

  /** The value of the last current contact entry whose type is in `kinds`, if there is one. */
  function LastContact(contacts: seq<RawContact>, kinds: set<string>): (v: Option<Option<string>>)
    ensures v.Some? <==> exists i :: 0 <= i < |contacts| && StampFalsy(contacts[i].endDate) && contacts[i].kind in kinds
    ensures v.Some? ==> exists i :: 0 <= i < |contacts| && StampFalsy(contacts[i].endDate) && contacts[i].kind in kinds
                          && v.value == contacts[i].value
                          && forall j :: i < j < |contacts| ==> !(StampFalsy(contacts[j].endDate) && contacts[j].kind in kinds)
    decreases |contacts|
  {
    if |contacts| == 0 then None
    else
      var last := contacts[|contacts| - 1];
      if StampFalsy(last.endDate) && last.kind in kinds then Some(last.value)
      else LastContact(contacts[..|contacts| - 1], kinds)
  }

  /** A name that goes into `auxiliaryNames`: not type 1, no end date. */
  predicate IsAuxiliary(n: NameEntry)
  {
    n.kind != Number(1) && StampFalsy(n.endDate)
  }

  /** The auxiliary names, in order. */
  function AuxiliaryNames(names: seq<NameEntry>): (aux: seq<string>)
    ensures |aux| <= |names|
    ensures |names| == 1 ==> aux == if IsAuxiliary(names[0]) then [names[0].name] else []
    decreases |names|
  {
    if |names| == 0 then []
    else AuxiliaryNames(names[..|names| - 1])
         + (if IsAuxiliary(names[|names| - 1]) then [names[|names| - 1].name] else [])
  }

  /** The names of a concatenation are those of its first part followed by those of its second. */
  lemma {:induction false} AuxiliaryNamesAppend(a: seq<NameEntry>, b: seq<NameEntry>)
    ensures AuxiliaryNames(a + b) == AuxiliaryNames(a) + AuxiliaryNames(b)
    decreases |b|
  {
    if |b| == 0 {
      assert a + b == a;
    } else {
      var init := b[..|b| - 1];
      assert (a + b)[..|a + b| - 1] == a + init;
      assert (a + b)[|a + b| - 1] == b[|b| - 1];
      AuxiliaryNamesAppend(a, init);
    }
  }

  /** Every auxiliary name comes from an auxiliary entry and every auxiliary entry is listed. */
  lemma {:induction false} AuxiliaryNamesExact(names: seq<NameEntry>)
    ensures forall x :: x in AuxiliaryNames(names) ==> exists i :: 0 <= i < |names| && IsAuxiliary(names[i]) && names[i].name == x
    ensures forall i :: 0 <= i < |names| && IsAuxiliary(names[i]) ==> names[i].name in AuxiliaryNames(names)
    decreases |names|
  {
    if |names| > 0 {
      var init := names[..|names| - 1];
      AuxiliaryNamesExact(init);
      forall x | x in AuxiliaryNames(names)
        ensures exists i :: 0 <= i < |names| && IsAuxiliary(names[i]) && names[i].name == x
      {
        if x in AuxiliaryNames(init) {
          var i :| 0 <= i < |init| && IsAuxiliary(init[i]) && init[i].name == x;
          assert names[i] == init[i];
        }
      }
      forall i | 0 <= i < |names| && IsAuxiliary(names[i]) ensures names[i].name in AuxiliaryNames(names) {
        if i < |init| { assert init[i] == names[i]; }
      }
    }
  }

  /** The status line: removed beats in liquidation beats active. */
  function CompanyStatus(c: RawCompany): (status: string)
    ensures c.tradeRegisterStatus == Text("2") ==> status == "Poistettu rekisteristä"
    ensures c.tradeRegisterStatus != Text("2") && |c.companySituations| > 0 ==> status == "Selvitystilassa"
    ensures c.tradeRegisterStatus != Text("2") && |c.companySituations| == 0 ==> status == "Aktiivinen"
  {
    var status := if |c.companySituations| > 0 then "Selvitystilassa" else "Aktiivinen";
    if c.tradeRegisterStatus == Text("2") then "Poistettu rekisteristä" else status
  }

  /** `x || ''` on a copied value. */
  function LooseOr(x: Option<Loose>): (v: Loose)
    ensures x.Some? && x.value != LooseText("") ==> v == x.value
    ensures x.None? || x.value == LooseText("") ==> v == LooseText("")
  {
    if x.Some? && x.value != LooseText("") then x.value else LooseText("")
  }

  /**
   * `businessLine` and `businessLineCode`: the main business line's
   * descriptions and type, both empty when the company has none.
   */
  function BusinessLineOf(c: RawCompany): (r: (Loose, Loose))
    ensures c.mainBusinessLine.None? ==> r == (LooseText(""), LooseText(""))
    ensures c.mainBusinessLine.Some? ==>
              r == (LooseOr(c.mainBusinessLine.value.descriptions), LooseOr(c.mainBusinessLine.value.kind))
  {
    match c.mainBusinessLine
    case None => (LooseText(""), LooseText(""))
    case Some(line) => (LooseOr(line.descriptions), LooseOr(line.kind))
  }

  /**
   * `descriptions[0]?.name || descriptions[0] || ''`: the first entry's
   * name; a first entry without a name is itself copied, a text entry is
   * its text, and a `null` or missing entry gives ''.
   */
  function FormDescriptionOf(ds: seq<FormDescription>): (v: Loose)
    ensures |ds| == 0 ==> v == LooseText("")
    ensures |ds| > 0 && ds[0].DescObject? ==>
              v == if ds[0].name.Some? && ds[0].name.value != LooseText("") then ds[0].name.value else LooseOther
    ensures |ds| > 0 && ds[0].DescNull? ==> v == LooseText("")
    ensures |ds| > 0 && ds[0].DescText? ==> v == LooseText(ds[0].text)
  {
    if |ds| == 0 then LooseText("")
    else match ds[0]
      case DescObject(name) => if name.Some? && name.value != LooseText("") then name.value else LooseOther
      case DescNull => LooseText("")
      case DescText(t) => LooseText(t)
  }

  /**
   * `companyForm` and `companyFormCode`: from the first entry of
   * `companyForms` when it is not `null`; the description only when the
   * entry's `descriptions` is an array; both empty otherwise.
   */
  function CompanyFormOf(c: RawCompany): (r: (Loose, Loose))
    ensures |c.companyForms| == 0 || c.companyForms[0].None? ==> r == (LooseText(""), LooseText(""))
    ensures |c.companyForms| > 0 && c.companyForms[0].Some? ==>
              var f := c.companyForms[0].value;
              r.1 == LooseOr(f.kind)
              && r.0 == (if f.descriptions.Some? then FormDescriptionOf(f.descriptions.value) else LooseText(""))
  {
    if |c.companyForms| == 0 || c.companyForms[0].None? then (LooseText(""), LooseText(""))
    else
      var f := c.companyForms[0].value;
      (if f.descriptions.Some? then FormDescriptionOf(f.descriptions.value) else LooseText(""), LooseOr(f.kind))
  }

  /** `postOffice`; `None` when the first entry is `null`, which throws. */
  function PostOfficeName(a: RawAddress): Option<string>
  {
    match a.postOffices
    case Some(offices) =>
      if |offices| == 0 then Some("")
      else (match offices[0]
        case OfficeObject(name) => Some(OrElse(name, ""))
        case OfficeNull => None
        case OfficeText(t) => Some(t))
    case None => Some("")
  }

  /** One parsed address; the house number follows the street after a space, and the result is trimmed. */
  function ToAddress(a: RawAddress, city: string): (r: Address)
    ensures r.street == Trim(OrElse(a.street, "") + " " + OrElse(a.buildingNumber, ""))
    ensures r.postCode == OrElse(a.postCode, "") && r.city == city && r.country == "FI"
  {
    Address(Trim(OrElse(a.street, "") + " " + OrElse(a.buildingNumber, "")), OrElse(a.postCode, ""), city, "FI")
  }

  /** `phone` / `website` of `contactDetails`: the last current entry's value; `None` when unset. */
  function ContactValue(contacts: seq<RawContact>, kinds: set<string>): Option<string>
  {
    match LastContact(contacts, kinds)
    case Some(v) => v
    case None => None
  }

  /** The address loop; `None` when a `null` post office throws. */
  method CollectAddresses(addrs: seq<RawAddress>) returns (r: Option<seq<Address>>)
    ensures r.None? <==> exists i :: 0 <= i < |addrs| && PostOfficeName(addrs[i]).None?
    ensures r.Some? ==> |r.value| == |addrs|
    ensures r.Some? ==> forall i :: 0 <= i < |addrs| ==> r.value[i] == ToAddress(addrs[i], PostOfficeName(addrs[i]).value)
  {
    var addresses: seq<Address> := [];
    var i := 0;
    while i < |addrs|
      invariant 0 <= i <= |addrs| && |addresses| == i
      invariant forall k :: 0 <= k < i ==> PostOfficeName(addrs[k]).Some?
      invariant forall k :: 0 <= k < i ==> addresses[k] == ToAddress(addrs[k], PostOfficeName(addrs[k]).value)
    {
      var city := PostOfficeName(addrs[i]);
      if city.None? {
        return None;
      }
      addresses := addresses + [ToAddress(addrs[i], city.value)];
      i := i + 1;
    }
    r := Some(addresses);
  }

  /** The contact loop: later entries overwrite earlier ones. */
  method CollectContacts(contacts: seq<RawContact>) returns (phone: Option<string>, website: Option<string>)
    ensures phone == ContactValue(contacts, PhoneKinds)
    ensures website == ContactValue(contacts, {WebsiteKind})
  {
    phone, website := None, None;
    var j := 0;
    while j < |contacts|
      invariant 0 <= j <= |contacts|
      invariant phone == ContactValue(contacts[..j], PhoneKinds)
      invariant website == ContactValue(contacts[..j], {WebsiteKind})
    {
      var contact := contacts[j];
      assert contacts[..j + 1][..j] == contacts[..j];
      if StampFalsy(contact.endDate) {
        if contact.kind in PhoneKinds {
          phone := contact.value;
        } else if contact.kind == WebsiteKind {
          website := contact.value;
        }
      }
      j := j + 1;
    }
    assert contacts[..j] == contacts;
  }

  /** The auxiliary-name loop. */
  method CollectAuxiliaryNames(names: seq<NameEntry>) returns (aux: seq<string>)
    ensures aux == AuxiliaryNames(names)
  {
    aux := [];
    var k := 0;
    while k < |names|
      invariant 0 <= k <= |names|
      invariant aux == AuxiliaryNames(names[..k])
    {
      assert names[..k + 1][..k] == names[..k];
      if IsAuxiliary(names[k]) {
        aux := aux + [names[k].name];
      }
      k := k + 1;
    }
    assert names[..k] == names;
  }

  /**
   * `getCompanyDetails` after the fetch: the first company, parsed field by
   * field. `None` for an empty response and for input on which the source
   * throws (a `null` business id or post office).
   */
  method ParseDetails(companies: seq<RawCompany>) returns (d: Option<Details>)
    ensures |companies| == 0 ==> d == None
    ensures |companies| > 0 ==>
      var c := companies[0];
      (d == None <==> c.businessId.IdNull? || exists i :: 0 <= i < |c.addresses| && PostOfficeName(c.addresses[i]).None?)
    ensures d.Some? ==>
      var c := companies[0];
      && d.value.businessId == BusinessIdValue(c.businessId)
      && d.value.name == CompanyName(c)
      && d.value.registrationDate == RegistrationDate(c)
      && (d.value.companyForm, d.value.companyFormCode) == CompanyFormOf(c)
      && (d.value.businessLine, d.value.businessLineCode) == BusinessLineOf(c)
      && |d.value.addresses| == |c.addresses|
      && (forall i :: 0 <= i < |c.addresses| ==>
            d.value.addresses[i] == ToAddress(c.addresses[i], PostOfficeName(c.addresses[i]).value))
      && d.value.phone == ContactValue(c.contactDetails, PhoneKinds)
      && d.value.website == ContactValue(c.contactDetails, {WebsiteKind})
      && d.value.auxiliaryNames == (if c.names.Some? then AuxiliaryNames(c.names.value) else [])
      && d.value.status == CompanyStatus(c)
      && d.value.liquidations == c.companySituations
  {
    if |companies| == 0 {
      return None;
    }
    var c := companies[0];
    if c.businessId.IdNull? {
      return None;
    }
    var addresses := CollectAddresses(c.addresses);
    if addresses.None? {
      return None;
    }
    var phone, website := CollectContacts(c.contactDetails);
    var auxiliaryNames: seq<string> := [];
    if c.names.Some? {
      auxiliaryNames := CollectAuxiliaryNames(c.names.value);
    }
    var businessLine, businessLineCode := BusinessLineOf(c).0, BusinessLineOf(c).1;
    var companyForm, companyFormCode := CompanyFormOf(c).0, CompanyFormOf(c).1;
    d := Some(Details(BusinessIdValue(c.businessId), CompanyName(c), RegistrationDate(c),
                      companyForm, companyFormCode, businessLine, businessLineCode, addresses.value,
                      phone, website, auxiliaryNames, CompanyStatus(c), c.companySituations));
  }

  // ---------------------------------------------------------------------
  // Display helpers
  // ---------------------------------------------------------------------

  /** `formatAddress`: street and "postCode city", without empty parts, joined by ", ". */
  function FormatAddress(a: Address): (text: string)
    ensures a.street != "" && Trim(a.postCode + " " + a.city) != "" ==>
              text == a.street + ", " + Trim(a.postCode + " " + a.city)
    ensures a.street == "" ==> text == Trim(a.postCode + " " + a.city)
    ensures Trim(a.postCode + " " + a.city) == "" ==> text == a.street
  {
    var place := Trim(a.postCode + " " + a.city);
    assert [a.street, place][1..] == [place] && [place][1..] == [];
    assert NonEmpty([place]) == if place != "" then [place] else [];
    assert NonEmpty([a.street, place]) == (if a.street != "" then [a.street] else []) + NonEmpty([place]);
    assert Join([a.street, place], ", ") == a.street + ", " + Join([place], ", ");
    Join(NonEmpty([a.street, place]), ", ")
  }

  /** `filter(Boolean)` on strings. */
  function NonEmpty(parts: seq<string>): (r: seq<string>)
    ensures forall p :: p in r ==> p != ""
    ensures forall p :: p in parts && p != "" ==> p in r
    ensures |r| <= |parts|
  {
    if |parts| == 0 then []
    else (if parts[0] != "" then [parts[0]] else []) + NonEmpty(parts[1..])
  }

  /** `hasActiveLiquidation`: some situation has an end date that is exactly `null`. */
  function HasActiveLiquidation(d: Details): (active: bool)
    ensures active <==> exists i :: 0 <= i < |d.liquidations| && d.liquidations[i].endDate == Null
  {
    exists s :: s in d.liquidations && s.endDate == Null
  }
}
