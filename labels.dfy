/**
 * Display helpers of the front end: the Finnish labels and badge colours of
 * application, offer and contract statuses, the application-type text and
 * `truncate`.
 */
module Labels {
  import opened Common

  const StatusLabels: map<string, string> := map[
    "DRAFT" := "Luonnos",
    "SUBMITTED" := "Lähetetty",
    "SUBMITTED_TO_FINANCIER" := "Käsittelyssä",
    "IN_PROGRESS" := "Käsittelyssä",
    "INFO_REQUESTED" := "Lisätietopyyntö",
    "OFFER_RECEIVED" := "Tarjous saatu",
    "OFFER_SENT" := "Tarjous saatavilla",
    "OFFER_ACCEPTED" := "Tarjous hyväksytty",
    "CREDIT_DECISION_PENDING" := "Luottopäätös käsittelyssä",
    "OFFER_REJECTED" := "Asiakas hylännyt tarjouksen",
    "REJECTED" := "Hylätty",
    "CONTRACT_SENT" := "Sopimus lähetetty",
    "WAITING_SIGNATURE" := "Odottaa allekirjoitusta",
    "SIGNED" := "Allekirjoitettu",
    "CLOSED" := "Suljettu",
    "CANCELLED" := "Peruutettu"]

  const StatusColors: map<string, string> := map[
    "DRAFT" := "badge-gray",
    "SUBMITTED" := "badge-blue",
    "SUBMITTED_TO_FINANCIER" := "badge-blue",
    "IN_PROGRESS" := "badge-blue",
    "INFO_REQUESTED" := "badge-yellow",
    "OFFER_RECEIVED" := "badge-orange",
    "OFFER_SENT" := "badge-green",
    "OFFER_ACCEPTED" := "badge-green",
    "CREDIT_DECISION_PENDING" := "badge-purple",
    "OFFER_REJECTED" := "badge-red",
    "REJECTED" := "badge-red",
    "CONTRACT_SENT" := "badge-purple",
    "WAITING_SIGNATURE" := "badge-purple",
    "SIGNED" := "badge-green",
    "CLOSED" := "badge-gray",
    "CANCELLED" := "badge-red"]

  const OfferStatusLabels: map<string, string> := map[
    "DRAFT" := "Luonnos",
    "PENDING_ADMIN" := "Odottaa hyväksyntää",
    "SENT" := "Lähetetty asiakkaalle",
    "ACCEPTED" := "Hyväksytty",
    "REJECTED" := "Hylätty",
    "EXPIRED" := "Vanhentunut"]

  const ContractStatusLabels: map<string, string> := map[
    "DRAFT" := "Luonnos",
    "PENDING_ADMIN" := "Odottaa hyväksyntää",
    "SENT" := "Lähetetty",
    "SIGNED" := "Allekirjoitettu",
    "REJECTED" := "Hylätty",
    "EXPIRED" := "Vanhentunut"]

  /** `table[key] || fallback`. */
  function LookupOr(table: map<string, string>, key: string, fallback: string): string
  {
    if key in table && table[key] != "" then table[key] else fallback
  }

  /** Every text and colour in the tables is non-empty, so `|| fallback` only fires for unknown keys. */
  lemma StatusLabelsNonEmpty()
    ensures forall k :: k in StatusLabels ==> StatusLabels[k] != ""
  {
  }

  /** Every colour is a badge class, so none is empty. */
  lemma StatusColorsAreBadges()
    ensures forall k :: k in StatusColors ==> StartsWith(StatusColors[k], "badge-") && StatusColors[k] != ""
  {
  }

  lemma OfferStatusLabelsNonEmpty()
    ensures forall k :: k in OfferStatusLabels ==> OfferStatusLabels[k] != ""
  {
  }

  lemma ContractStatusLabelsNonEmpty()
    ensures forall k :: k in ContractStatusLabels ==> ContractStatusLabels[k] != ""
  {
  }

  /** `getStatusLabel`. */
  function StatusLabel(status: string): (text: string)
    ensures status in StatusLabels ==> text == StatusLabels[status]
    ensures status !in StatusLabels ==> text == status
  {
    StatusLabelsNonEmpty();
    LookupOr(StatusLabels, status, status)
  }

  /** `getStatusColor`. */
  function StatusColor(status: string): (color: string)
    ensures status in StatusColors ==> color == StatusColors[status]
    ensures status !in StatusColors ==> color == "badge-gray"
    ensures StartsWith(color, "badge-")
  {
    StatusColorsAreBadges();
    assert StartsWith("badge-gray", "badge-");
    LookupOr(StatusColors, status, "badge-gray")
  }

  /** `getOfferStatusLabel`. */
  function OfferStatusLabel(status: string): (text: string)
    ensures status in OfferStatusLabels ==> text == OfferStatusLabels[status]
    ensures status !in OfferStatusLabels ==> text == status
  {
    OfferStatusLabelsNonEmpty();
    LookupOr(OfferStatusLabels, status, status)
  }

  /** `getContractStatusLabel`. */
  function ContractStatusLabel(status: string): (text: string)
    ensures status in ContractStatusLabels ==> text == ContractStatusLabels[status]
    ensures status !in ContractStatusLabels ==> text == status
  {
    ContractStatusLabelsNonEmpty();
    LookupOr(ContractStatusLabels, status, status)
  }

  /** The offer and contract tables differ only in what SENT reads, and in ACCEPTED versus SIGNED. */
  lemma OfferAndContractLabels()
    ensures OfferStatusLabel("SENT") == "Lähetetty asiakkaalle" && ContractStatusLabel("SENT") == "Lähetetty"
    ensures forall s :: s in {"DRAFT", "PENDING_ADMIN", "REJECTED", "EXPIRED"} ==>
              OfferStatusLabel(s) == ContractStatusLabel(s)
  {
  }

  /** `getApplicationTypeLabel`. */
  function ApplicationTypeLabel(applicationType: string): (text: string)
    ensures text == "Leasing" <==> applicationType == "LEASING"
    ensures text != "Leasing" ==> text == "Sale-Leaseback"
  {
    if applicationType == "LEASING" then "Leasing" else "Sale-Leaseback"
  }

  /** `str.slice(0, end)`: a negative end counts from the back, and both ends are clamped. */
  function SliceTo(s: string, end: int): (r: string)
    ensures r == s[..if end < 0 then (if |s| + end < 0 then 0 else |s| + end) else (if end > |s| then |s| else end)]
  {
    if end < 0 then (if |s| + end < 0 then "" else s[..|s| + end])
    else if end > |s| then s
    else s[..end]
  }

  /** `truncate(str, length)`. */
  function Truncate(s: string, length: int): (r: string)
    ensures |s| <= length ==> r == s
    ensures 0 <= length < |s| ==> r == s[..length] + "..." && |r| == length + 3
    ensures length < 0 ==> r == SliceTo(s, length) + "..."
    ensures |s| > length ==> |r| <= |s| + 3 && r[..|r| - 3] <= s
  {
    if |s| <= length then s else SliceTo(s, length) + "..."
  }

  // ---------------------------------------------------------------------
  // File sizes
  // ---------------------------------------------------------------------

  const SizeUnits: seq<string> := ["B", "KB", "MB", "GB"]

  function Pow1024(i: nat): (p: nat)
    ensures p >= 1
  {
    if i == 0 then 1 else 1024 * Pow1024(i - 1)
  }

  /**
   * `Math.floor(Math.log(bytes) / Math.log(1024))` for a whole positive
   * size: the power of 1024 that the size reaches and does not pass.
   */
  function SizeUnitIndex(bytes: nat): (i: nat)
    requires bytes > 0
    ensures Pow1024(i) <= bytes < Pow1024(i + 1)
    decreases bytes
  {
    if bytes < 1024 then 0
    else
      var j := SizeUnitIndex(bytes / 1024);
      assert 1024 * (bytes / 1024) <= bytes < 1024 * (bytes / 1024 + 1);
      assert Pow1024(j + 1) == 1024 * Pow1024(j) && Pow1024(j + 2) == 1024 * Pow1024(j + 1);
      1 + j
  }

  lemma {:induction false} Pow1024Grows(i: nat, j: nat)
    requires i < j
    ensures Pow1024(i + 1) <= Pow1024(j)
    decreases j
  {
    if i + 1 < j {
      Pow1024Grows(i, j - 1);
    }
  }

  /** The unit index is the only power of 1024 that brackets the size. */
  lemma SizeUnitIndexUnique(bytes: nat, i: nat)
    requires Pow1024(i) <= bytes < Pow1024(i + 1)
    ensures SizeUnitIndex(bytes) == i
  {
    var k := SizeUnitIndex(bytes);
    if k < i {
      Pow1024Grows(k, i);
    } else if i < k {
      Pow1024Grows(i, k);
    }
  }

  /** `sizes[i]`, which is `undefined` past the last unit and then prints as 'undefined'. */
  function UnitName(i: nat): (u: string)
    ensures i < |SizeUnits| ==> u == SizeUnits[i]
    ensures i >= |SizeUnits| ==> u == "undefined"
  {
    if i < |SizeUnits| then SizeUnits[i] else "undefined"
  }

  /**
   * `formatFileSize` for a whole number of bytes: '0 B' for zero; otherwise
   * `scaled`, which stands for `parseFloat((bytes / 1024 ** i).toFixed(2))`
   * as JavaScript prints it, a space and the unit of the size.
   */
  function FormatFileSize(bytes: nat, scaled: string): (text: string)
    ensures bytes == 0 ==> text == "0 B"
    ensures bytes > 0 ==> exists i: nat :: Pow1024(i) <= bytes < Pow1024(i + 1) && text == scaled + " " + UnitName(i)
  {
    if bytes == 0 then "0 B" else scaled + " " + UnitName(SizeUnitIndex(bytes))
  }

  /** Sizes below 1024 are in bytes, and sizes from 1024 up to 1024 * 1024 - 1 in kilobytes. */
  lemma FileSizeUnits(bytes: nat, scaled: string)
    ensures 0 < bytes < 1024 ==> FormatFileSize(bytes, scaled) == scaled + " B"
    ensures 1024 <= bytes < 1024 * 1024 ==> FormatFileSize(bytes, scaled) == scaled + " KB"
  {
    if 0 < bytes < 1024 {
      SizeUnitIndexUnique(bytes, 0);
    } else if 1024 <= bytes < 1024 * 1024 {
      assert Pow1024(2) == 1024 * 1024;
      SizeUnitIndexUnique(bytes, 1);
    }
  }
}
