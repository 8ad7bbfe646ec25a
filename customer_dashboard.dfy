/** The state the customer dashboard (src/pages/CustomerDashboard.tsx) keeps
    and the steps that change it: loading the catalog, loading and enriching
    the investments, and a purchase with its offline fallback. */
module CustomerDashboardPage {
  import opened Js
  import opened Types
  import opened Portfolio
  import opened Auth

  /** The user after paying `amount`: the balance drops by exactly that
      much, with no floor, and nothing else changes. */
  function Debited(u: User, amount: real): (d: User)
    ensures d.balance == u.balance - amount
    ensures d.(balance := u.balance) == u
  {
    u.(balance := u.balance - amount)
  }

  class CustomerDashboard {
    var products: seq<InvestmentProduct>
    var investments: seq<UserInvestment>
    var summary: PortfolioSummary
    const session: Session

    /** The summary shows the fold of the investments held. It holds after
        every fetch; the offline purchase keeps all of it but total returns. */
    predicate SummaryMatches()
      reads this
    {
      summary == Summarize(investments)
    }

    constructor (session: Session)
      ensures this.session == session
      ensures products == [] && investments == [] && summary == EmptySummary
      ensures SummaryMatches()
    {
      this.session := session;
      products := [];
      investments := [];
      summary := EmptySummary;
    }

    /** Load the catalog; a failed request leaves it empty. */
    method FetchProducts(response: Option<ListBody>)
      modifies this`products
      ensures products == DecodeProducts(response)
    {
      products := DecodeProducts(response);
    }

    /** Load the investments: on a response, the records read as
        `data.data || data.investments || data` are enriched against the
        catalog, and the summary is the fold of the raw records. A failed
        request changes nothing. */
    method FetchUserInvestments(response: Option<Envelope<seq<UserInvestment>>>, lookups: seq<Lookup>)
      modifies this`investments, this`summary
      ensures response.None? ==> investments == old(investments) && summary == old(summary)
      ensures response.Some? ==> investments == Enrich(products, Unwrap(response.value), lookups) &&
                                 summary == Summarize(Unwrap(response.value))
      ensures response.Some? ==> SummaryMatches()
    {
      if response.Some? {
        var records := Unwrap(response.value);
        investments := Enrich(products, records, lookups);
        summary := Summarize(records);
        SummaryIgnoresEnrichment(products, records, lookups);
      }
    }

    /** Debit the purchase from the balance the user had when it began, with
        no floor: a balance may go negative. */
    method Debit(u: User, amount: real)
      requires session.Valid() && session.user == Some(u)
      modifies session
      ensures session.Valid() && session.user == Some(Debited(u, amount))
      ensures session.storedToken == old(session.storedToken) && session.isLoading == old(session.isLoading)
    {
      session.UpdateUser(BalancePatch(u.balance - amount));
      MergeLaws(u, EmptyPatch, EmptyPatch, u.balance - amount);
    }

    /** The server created the investment: re-fetch the list, then debit
        the balance the user had when the purchase began. */
    method PurchaseCreated(u: User, amount: real, refreshed: Option<Envelope<seq<UserInvestment>>>, lookups: seq<Lookup>)
      requires session.Valid() && session.user == Some(u)
      modifies this`investments, this`summary, session
      ensures session.storedToken == old(session.storedToken) && session.isLoading == old(session.isLoading)
      ensures session.Valid() && session.user == Some(Debited(u, amount))
      ensures refreshed.Some? ==> investments == Enrich(products, Unwrap(refreshed.value), lookups) &&
                                  summary == Summarize(Unwrap(refreshed.value))
      ensures refreshed.None? ==> investments == old(investments) && summary == old(summary)
    {
      FetchUserInvestments(refreshed, lookups);
      Debit(u, amount);
    }

    /** The offline fallback for a product found in the catalog: debit the
        balance with no floor, append exactly one investment, and update the
        summary from its previous value. */
    method PurchaseOffline(u: User, product: InvestmentProduct, amount: real, newId: string, now: string)
      requires session.Valid() && session.user == Some(u)
      modifies this`investments, this`summary, session
      ensures session.storedToken == old(session.storedToken) && session.isLoading == old(session.isLoading)
      ensures session.Valid() && session.user == Some(Debited(u, amount))
      ensures investments == old(investments) + [OfflineInvestment(newId, u.id, product, amount, now)]
      ensures summary == IncrementalSummary(old(summary), old(investments), amount,
                                            OfflineInvestment(newId, u.id, product, amount, now).currentValue.value)
    {
      Debit(u, amount);
      var inv := OfflineInvestment(newId, u.id, product, amount, now);
      summary := IncrementalSummary(summary, investments, amount, inv.currentValue.value);
      investments := investments + [inv];
    }

    /** The fallback when the server did not create the investment: look the
        product up in the catalog; an unknown id changes nothing, a known one
        goes through PurchaseOffline. */
    method PurchaseFallback(u: User, productId: string, amount: real, newId: string, now: string)
      requires session.Valid() && session.user == Some(u)
      modifies this`investments, this`summary, session
      ensures session.storedToken == old(session.storedToken) && session.isLoading == old(session.isLoading)
      ensures session.Valid()
      ensures FindById(products, productId).None? ==>
                session.user == old(session.user) && investments == old(investments) && summary == old(summary)
      ensures FindById(products, productId).Some? ==>
                var inv := OfflineInvestment(newId, u.id, FindById(products, productId).value, amount, now);
                session.user == Some(Debited(u, amount)) &&
                investments == old(investments) + [inv] &&
                summary == IncrementalSummary(old(summary), old(investments), amount, inv.currentValue.value)
    {
      var found := FindById(products, productId);
      if found.Some? {
        PurchaseOffline(u, found.value, amount, newId, now);
      }
    }

    /** Buy `amount` of product `productId`. Without a user nothing happens.
        When the server creates the investment, the list is re-fetched and the
        balance debited; otherwise the catalog fallback runs. */
    method HandlePurchase(productId: string, amount: real, created: bool,
                          refreshed: Option<Envelope<seq<UserInvestment>>>, lookups: seq<Lookup>,
                          newId: string, now: string)
      requires session.Valid()
      modifies this`investments, this`summary, session
      ensures session.storedToken == old(session.storedToken) && session.isLoading == old(session.isLoading)
      ensures session.Valid()
      ensures old(session.user).None? || (!created && FindById(products, productId).None?) ==>
                session.user == old(session.user) && investments == old(investments) && summary == old(summary)
      ensures old(session.user).Some? && created ==>
                session.user == Some(Debited(old(session.user).value, amount)) &&
                (refreshed.Some? ==> investments == Enrich(products, Unwrap(refreshed.value), lookups) &&
                                     summary == Summarize(Unwrap(refreshed.value))) &&
                (refreshed.None? ==> investments == old(investments) && summary == old(summary))
      ensures old(session.user).Some? && !created && FindById(products, productId).Some? ==>
                var u := old(session.user).value;
                var inv := OfflineInvestment(newId, u.id, FindById(products, productId).value, amount, now);
                session.user == Some(Debited(u, amount)) &&
                investments == old(investments) + [inv] &&
                summary == IncrementalSummary(old(summary), old(investments), amount, inv.currentValue.value)
    {
      if session.user.None? {
        return;
      }
      var u := session.user.value;
      if created {
        PurchaseCreated(u, amount, refreshed, lookups);
      } else {
        PurchaseFallback(u, productId, amount, newId, now);
      }
    }
  }
}
