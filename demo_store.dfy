/**
 * The demo tables in `localStorage`, each held decoded. A missing key reads
 * as an empty list (`JSON.parse(localStorage.getItem(key) || '[]')`), which
 * is the state a fresh store starts in.
 */
module DemoStorage {
  import opened Records

  const ApplicationsKey: string := "demo-applications"
  const OffersKey: string := "demo-offers"
  const ContractsKey: string := "demo-contracts"
  const InfoRequestsKey: string := "demo-info-requests"
  const CustomerReadKey: string := "demo-customer-notifications-read"
  const FinancierReadKey: string := "demo-notifications-read"

  class DemoStore {
    var apps: seq<Application>
    var offers: seq<Offer>
    var contracts: seq<Contract>
    var infoRequests: seq<InfoRequest>
    /** Read-keys of the customer's notifications. */
    var customerRead: seq<string>
    /** Read-keys of the financier's notifications. */
    var financierRead: seq<string>

    /** Storage with none of the demo keys set. */
    constructor ()
      ensures apps == [] && offers == [] && contracts == [] && infoRequests == []
      ensures customerRead == [] && financierRead == []
    {
      apps := [];
      offers := [];
      contracts := [];
      infoRequests := [];
      customerRead := [];
      financierRead := [];
    }
  }
}
