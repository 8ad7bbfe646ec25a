# Investment marketplace front end: a verified model of its decision logic

The marketplace is a React single-page application. Customers use it to buy
investment products, and administrators use it to maintain the product
catalog. The application holds its state in React components and an
authentication context, talks to a REST back end, and falls back to built-in
demo data whenever the back end cannot be reached.

This project models the logic those components run:

- the portfolio summary the customer dashboard folds over the investment
  records, and the enrichment that attaches a product to every record;
- a purchase: the online path and the offline fallback, the balance debit,
  and the incremental summary update;
- the per-row derivations of the investment history table, with status
  classification and the Cancel gating;
- the purchase dialog of the marketplace, the recommendations panel and the
  add-funds dialog;
- the admin catalog operations (edit, create, delete, statistics) and the
  product form record;
- the session: demo login and signup, update, logout, restore;
- the role guard on the protected routes, the landing-page redirect, the
  ticker, and the risk-profile classifier of the insights panel.

The modules follow the source files one to one:

| module | file |
|---|---|
| `Js` | the JavaScript conventions the components rely on (optional properties, the falsy fallback `a \|\| b`, `toLowerCase`, response envelopes) |
| `Types` | `src/types/index.ts` |
| `Portfolio`, `CustomerDashboardPage` | `src/pages/CustomerDashboard.tsx` (pure half, stateful half) |
| `InvestmentHistoryView` | `src/components/customer/InvestmentHistory.tsx` |
| `Marketplace` | `src/components/customer/ProductMarketplace.tsx` |
| `Recommendations` | `src/components/customer/ProductRecommendations.tsx` |
| `Balance` | `src/components/customer/BalanceManager.tsx` |
| `AdminDashboardPage` | `src/pages/AdminDashboard.tsx` |
| `ProductEditor` | `src/components/admin/ProductForm.tsx` |
| `Auth` | `src/contexts/AuthContext.tsx` |
| `Insights` | `src/components/customer/InsightsSection.tsx` |
| `Routing` | `src/App.tsx` and `src/pages/Index.tsx` |

The modelling conventions are these:

- Money, yields and percentages are `real`.
- An optional or `undefined` property is an `Option`.
- The JavaScript fallback `x || d` is written out as `OrNumber`/`OrString`, so a present 0 or `""` falls through to the default exactly as in the source.
- A response body read as `data.data || data.x || data` is an `Envelope` with the first present field winning.
- Every network answer, stored value, timestamp and generated id is a parameter of the operation that uses it.
- Component state updated in place is a class whose methods carry `modifies` clauses: the session, both dashboards, the dialogs, the form, the panels and the landing page.
- The record and list computations are functions, with lemmas relating them.

The source stores strings outside the enumerations in a product's
`investment_type` and `risk_level`: the placeholder uses `'unknown'`, and the
built-in recommendations use `'bond'` and `'mf'`. The badge and colour
switches also have default branches. For these reasons the model keeps both
fields as strings, and `Types.ParseType`/`Types.ParseRisk` tell which strings
are enumeration values. `UserInvestment` in `src/types/index.ts` declares
neither `amount` nor `status`, yet the components read both ad hoc; the model
declares them as optional fields.

## Model

| member | source | states |
|---|---|---|
| Types.ParseRole | src/types/index.ts:1-4 | a wire string is a role exactly when it is 'admin' or 'user', and then the role's value is that string |
| Types.ParseRisk | src/types/index.ts:6-10 | exactly 'low', 'moderate' and 'high' are risk levels, each read back to its own string |
| Types.ParseType | src/types/index.ts:12-18 | exactly the five listed strings are investment types, each read back to its own string |
| Types.EnumRoundTrips | src/types/index.ts:1-18 | every enumeration value survives the trip through its wire string, so distinct values have distinct strings |
| Types.ExpectedReturn | src/pages/CustomerDashboard.tsx:259 | the maturity return is 0 for a zero amount, yield or tenure, and never negative when all three are non-negative |
| Types.ExpectedReturnMonotone | src/pages/CustomerDashboard.tsx:259 | for non-negative yield and tenure the maturity return `amount·yield·tenure/1200` grows with the amount and is 0 for a zero amount |
| Types.ExpectedReturnExample | src/pages/CustomerDashboard.tsx:259 | 15000 at 7.8% for 12 months returns 1170 |
| Js.NumberInput | src/components/customer/ProductMarketplace.tsx:242-243 | `parseFloat(text) \|\| 0` is non-zero exactly when the text parsed to a non-zero number, and is then that number |
| Js.Unwrap | src/pages/CustomerDashboard.tsx:105 | the envelope yields `data.data` when present, else the alternative property, else the whole body |
| Portfolio.DecodeProducts | src/pages/CustomerDashboard.tsx:44-75 | the catalog is the body when it is an array, else its `data` array, else its `products` array, else empty; a failed request yields the empty catalog |
| Portfolio.IsActive | src/pages/CustomerDashboard.tsx:184-187 | a missing or empty status counts as active, and any other active status has the six letters of 'active' |
| Portfolio.ActiveSpellings | src/pages/CustomerDashboard.tsx:184-187 | a missing or empty status counts as active, the test ignores case, and 'cancelled', 'completed' and every non-empty status not six letters long are not active |
| Portfolio.Sum | src/pages/CustomerDashboard.tsx:175-181 | the reduce gives 0 for no records, the one reading for a single record, and a non-negative total when every reading is non-negative |
| Portfolio.CountActive | src/pages/CustomerDashboard.tsx:184-187 | the active count never exceeds the number of records |
| Portfolio.CountActiveExtremes | src/pages/CustomerDashboard.tsx:184-187 | the active count equals the number of records exactly when all are active, and is 0 exactly when none is |
| Portfolio.Percentage | src/pages/CustomerDashboard.tsx:193 | the returns percentage is 0 when nothing is invested, and otherwise times the invested total gives 100 times the gain |
| Portfolio.Summarize | src/pages/CustomerDashboard.tsx:175-195 | invested, current value and returns are the sums of the per-record fallback readings over every record, the percentage is guarded, the active count is the case-insensitive count, and no records give the all-zero summary |
| Portfolio.SumAppend | src/pages/CustomerDashboard.tsx:175-181 | summing over a list extended by one record adds that record's term |
| Portfolio.CountActiveAppend | src/pages/CustomerDashboard.tsx:184-187 | the active count grows by one exactly when the appended record is active |
| Portfolio.SumPointwise | src/pages/CustomerDashboard.tsx:175-181 | two record lists that agree position by position on a reading have the same sum |
| Portfolio.CountActivePointwise | src/pages/CustomerDashboard.tsx:184-187 | two record lists that agree position by position on status have the same active count |
| Portfolio.FindById | src/pages/CustomerDashboard.tsx:115 | the lookup misses exactly when no product has the id, and otherwise returns the first product with that id |
| Portfolio.ResolvedProduct | src/pages/CustomerDashboard.tsx:114-163 | the product attached always has a name and is the placeholder for the record's product id, a catalog product, or the fetched one |
| Portfolio.EnrichOne | src/pages/CustomerDashboard.tsx:110-167 | a record whose enrichment throws is returned as it was; otherwise it gets the resolved product and keeps every other field |
| Portfolio.Enrich | src/pages/CustomerDashboard.tsx:109-168 | enrichment keeps the length and order of the records and changes no field but the product; a record whose enrichment throws comes back unchanged, and every other record gets the product resolved from the catalog, the fetched response or the placeholder |
| Portfolio.ResolvedProductCases | src/pages/CustomerDashboard.tsx:114-163 | the catalog's product is attached when it is named, the fetched one when the catalog misses and the fetched one is named, and the 'Product Not Found' placeholder with the record's product id in every other case |
| Portfolio.SummaryIgnoresEnrichment | src/pages/CustomerDashboard.tsx:172-195 | the summary of the enriched records equals the summary of the raw ones, so product resolution never changes it |
| Portfolio.OfflineInvestment | src/pages/CustomerDashboard.tsx:259-272 | the appended record invests the full amount, is active, carries the product, has expected return `amount·yield·tenure/1200` and current value amount plus a tenth of that |
| Portfolio.IncrementalSummary | src/pages/CustomerDashboard.tsx:276-294 | the fallback's summary adds the amount and the new value to the previous totals, counts the held records' active ones plus one, and takes returns as current value minus invested |
| Portfolio.OfflineValueReadBack | src/pages/CustomerDashboard.tsx:260 | for non-negative yield and tenure the appended record's value is read back unchanged by the `current_value \|\| amount_invested` fallback of the fold |
| Portfolio.FoldExtend | src/pages/CustomerDashboard.tsx:175-194 | re-folding a list extended by one record adds that record's readings to each total and counts it when it is active |
| Portfolio.IncrementalAgreesWithFold | src/pages/CustomerDashboard.tsx:277-294 | starting from a summary that agrees with the fold of the held records on invested, current value and active count (so purchases chain), the fallback's update agrees with re-folding the extended list on invested, current value and active count, while its returns are value minus invested rather than the sum of expected returns |
| Portfolio.ReturnsDefinitionsDiverge | src/pages/CustomerDashboard.tsx:189-194 | the two definitions of total returns really differ: one purchase of 1000 at 12% for 12 months shows 12 through the fallback and 120 through a re-fetch |
| CustomerDashboardPage.Debited | src/pages/CustomerDashboard.tsx:254-256 | paying lowers the balance by exactly the amount, with no floor, and changes no other field of the user |
| CustomerDashboardPage.CustomerDashboard.constructor | src/pages/CustomerDashboard.tsx:18-26 | the dashboard starts with no products, no investments and the all-zero summary |
| CustomerDashboardPage.CustomerDashboard.FetchProducts | src/pages/CustomerDashboard.tsx:30-75 | the catalog becomes the decoded product list, empty on failure |
| CustomerDashboardPage.CustomerDashboard.FetchUserInvestments | src/pages/CustomerDashboard.tsx:87-202 | on a response, the investments are the enriched records and the summary is the fold of the raw records, so it matches the investments held; a failed request changes neither |
| CustomerDashboardPage.CustomerDashboard.Debit | src/pages/CustomerDashboard.tsx:237-239 | the session user becomes the user with the amount debited from the balance they had when the purchase began; the stored token and the loading flag are kept |
| CustomerDashboardPage.CustomerDashboard.PurchaseCreated | src/pages/CustomerDashboard.tsx:229-239 | when the server creates the investment, the list and summary are re-fetched and the balance is debited; the stored token and the loading flag are kept |
| CustomerDashboardPage.CustomerDashboard.PurchaseOffline | src/pages/CustomerDashboard.tsx:253-294 | the fallback debits the balance, appends exactly one investment at the end, and replaces the summary by the incremental update; the stored token and the loading flag are kept |
| CustomerDashboardPage.CustomerDashboard.PurchaseFallback | src/pages/CustomerDashboard.tsx:249-294 | an id missing from the catalog changes nothing; a known one runs the offline purchase with the catalog's product; the stored token and the loading flag are kept on every path |
| CustomerDashboardPage.CustomerDashboard.HandlePurchase | src/pages/CustomerDashboard.tsx:204-296 | no user, or a failed create with an unknown product, changes nothing; a created investment re-fetches and debits; otherwise the offline fallback debits, appends and updates the summary; no path touches the stored token or the loading flag |
| InvestmentHistoryView.RiskBadgeVariant | src/components/customer/InvestmentHistory.tsx:41-48 | 'moderate' gets the secondary badge, 'high' the destructive one, and everything else, every non-level string included, the default |
| InvestmentHistoryView.GetReturnColor | src/components/customer/InvestmentHistory.tsx:36-39 | the return shows as positive exactly when the current value is at least the amount invested |
| InvestmentHistoryView.Classify | src/components/customer/InvestmentHistory.tsx:192-201 | a row is active exactly when the summary counts it active, cancelled exactly when its status lower-cases to 'cancelled' or 'canceled', and a missing or empty status is active |
| InvestmentHistoryView.OffersCancel | src/components/customer/InvestmentHistory.tsx:215-231 | Cancel is offered exactly for rows not classified cancelled, so for every active row |
| InvestmentHistoryView.DeriveRow | src/components/customer/InvestmentHistory.tsx:127-145 | a row shows the fallback readings of amount, value and expected return, both percentages guarded against a zero amount, each product field or, when the product or that field is missing or empty, its default ('Unknown Product', 0, 0, 'unknown', 'moderate'), and its status category |
| InvestmentHistoryView.Rows | src/components/customer/InvestmentHistory.tsx:127 | there is one row per record, in order |
| InvestmentHistoryView.RowsOfPrefix | src/components/customer/InvestmentHistory.tsx:127 | the rows of a prefix of the records are the prefix of the rows |
| InvestmentHistoryView.RowTotalIsSum | src/components/customer/InvestmentHistory.tsx:130-137 | totalling a row column is summing the record reading it shows |
| InvestmentHistoryView.CountRowsPointwise | src/components/customer/InvestmentHistory.tsx:192-193 | rows and records that agree position by position on activity give the same active count |
| InvestmentHistoryView.ActiveRowsAreCounted | src/components/customer/InvestmentHistory.tsx:192-193 | the rows marked active are exactly as many as the records the summary counts as active |
| InvestmentHistoryView.RowsAgreeWithSummary | src/components/customer/InvestmentHistory.tsx:127-145 | the table's invested, value and expected-return columns add up to the dashboard summary's totals, and its active rows to its active count |
| InvestmentHistoryView.HandleCancelInvestment | src/components/customer/InvestmentHistory.tsx:64-86 | the parent refresh runs exactly when the cancel request succeeded and a callback was given; a failure only reports |
| Marketplace.RiskColorOf | src/components/customer/ProductMarketplace.tsx:49-60 | low, moderate and high get success, accent and destructive text, and exactly the strings that are not risk levels get the muted colour |
| Marketplace.RiskColorMatchesBadge | src/components/customer/ProductMarketplace.tsx:49-73 | the colour and the badge switches agree: destructive with destructive, accent with secondary, and muted or success with the default badge |
| Marketplace.MayInvest | src/components/customer/ProductMarketplace.tsx:76 | with a product selected, confirming goes through exactly when the amount is truthy (non-zero); without a selection it never does |
| Marketplace.CalculateExpectedReturn | src/components/customer/ProductMarketplace.tsx:97-105 | the shown return is 0 without a selection or with a zero amount, and otherwise the maturity return of the amount in the selected product |
| Marketplace.MaturityTotal | src/components/customer/ProductMarketplace.tsx:273-275 | the total shown exceeds the amount by exactly the expected return |
| Marketplace.MaturityNotBelowAmount | src/components/customer/ProductMarketplace.tsx:273-275 | for non-negative yield, tenure and amount the total is never below the amount |
| Marketplace.InvestIgnoresLimits | src/components/customer/ProductMarketplace.tsx:76 | the confirm guard lets through any non-zero amount, including amounts below the minimum and negative ones |
| Marketplace.ProductMarketplace.constructor | src/components/customer/ProductMarketplace.tsx:35-38 | the dialog starts closed, with nothing selected and amount 0 |
| Marketplace.ProductMarketplace.OpenInvestDialog | src/components/customer/ProductMarketplace.tsx:91-95 | opening selects the product, sets the amount to its minimum and opens the dialog |
| Marketplace.ProductMarketplace.SetAmountInput | src/components/customer/ProductMarketplace.tsx:242-243 | the amount becomes the parsed number, or 0 for text that is not a number |
| Marketplace.ProductMarketplace.CloseDialog | src/components/customer/ProductMarketplace.tsx:289 | the Cancel button closes the dialog |
| Marketplace.ProductMarketplace.HandleInvest | src/components/customer/ProductMarketplace.tsx:75-89 | without a selection or with a zero amount nothing happens; otherwise exactly one purchase of (selected id, amount) is handed over and the dialog resets and closes |
| Marketplace.OpenThenInvest | src/components/customer/ProductMarketplace.tsx:75-95 | opening on a product and confirming at once buys its minimum, unless that minimum is 0, in which case nothing is bought and the dialog stays open |
| Recommendations.MockRecommendations | src/components/customer/ProductRecommendations.tsx:92-126 | the built-in list has three products with distinct ids, each of moderate risk, positive yield and tenure, and a positive minimum not above its maximum |
| Recommendations.MockTypesOutsideEnum | src/components/customer/ProductRecommendations.tsx:96-118 | two built-in products carry investment types outside the enumeration |
| Recommendations.LoadedRecommendations | src/components/customer/ProductRecommendations.tsx:77-128 | a response yields `data.data`, else `data.recommendations`, else the body; any failure yields the built-in list |
| Recommendations.InvestNow | src/components/customer/ProductRecommendations.tsx:258 | "Invest Now" hands over the product's id and minimum exactly when a handler was given, so the amount meets the product's limits whenever they are consistent |
| Recommendations.MockInvestWithinLimits | src/components/customer/ProductRecommendations.tsx:258 | every built-in recommendation bought through "Invest Now" is within its limits and passes the marketplace guard |
| Recommendations.ProductRecommendations.constructor | src/components/customer/ProductRecommendations.tsx:23-25 | the panel starts empty, loading, with no error |
| Recommendations.ProductRecommendations.BeginFetch | src/components/customer/ProductRecommendations.tsx:63-64 | a request starts loading and clears the error |
| Recommendations.ProductRecommendations.FinishFetch | src/components/customer/ProductRecommendations.tsx:77-131 | a request ends with the decoded list or the built-in one, the error cleared on failure, and loading over |
| Recommendations.ProductRecommendations.FetchRecommendations | src/components/customer/ProductRecommendations.tsx:61-132 | after any outcome the list is the loaded one, there is no error and loading is over; a failure shows three products |
| Balance.ConfirmDisabled | src/components/customer/BalanceManager.tsx:147 | the confirm button is disabled exactly when the amount is not positive, which for a signed-in user is exactly when confirming would do nothing |
| Balance.MayAddFunds | src/components/customer/BalanceManager.tsx:32 | a credit goes through only for a signed-in user and then raises the previewed balance; when it is refused the preview does not rise |
| Balance.PreviewBalance | src/components/customer/BalanceManager.tsx:136 | the preview is the current balance (0 without a user) plus the amount, so a positive amount raises it |
| Balance.QuickAmountsEnableConfirm | src/components/customer/BalanceManager.tsx:55 | every quick amount is positive and enables the confirm button |
| Balance.BalanceManager.constructor | src/components/customer/BalanceManager.tsx:19-20 | the dialog starts closed with amount 0 |
| Balance.BalanceManager.SetAmountInput | src/components/customer/BalanceManager.tsx:103-104 | the amount becomes the parsed number, or 0 for text that is not a number |
| Balance.BalanceManager.QuickAdd | src/components/customer/BalanceManager.tsx:114-119 | a quick-add button sets the amount to its own one of the five quick amounts, enabling confirm |
| Balance.BalanceManager.HandleAddFunds | src/components/customer/BalanceManager.tsx:31-53 | without a user or with a non-positive amount nothing happens; otherwise the balance becomes the previewed one with no other user field changed, the amount resets to 0 and the dialog closes; the stored token and the loading flag are kept |
| AdminDashboardPage.ReplaceById | src/pages/AdminDashboard.tsx:66-68 | replacing keeps the length, puts the edited product at every position holding its id, and leaves every other product as it was |
| AdminDashboardPage.RemoveById | src/pages/AdminDashboard.tsx:100 | deleting removes every product with the id, keeps every other product, and adds none |
| AdminDashboardPage.RemoveByIdAppend | src/pages/AdminDashboard.tsx:100 | deleting distributes over concatenation, so the products kept stay in their relative order |
| AdminDashboardPage.RemoveAbsentId | src/pages/AdminDashboard.tsx:100 | deleting an id no product has changes nothing |
| AdminDashboardPage.RemoveAfterReplace | src/pages/AdminDashboard.tsx:66-100 | deleting an id after editing it is the same as deleting it |
| AdminDashboardPage.EditedProduct | src/pages/AdminDashboard.tsx:61-65 | an edit keeps the id, creator and creation time, takes every form field from the form, and sets a new update time |
| AdminDashboardPage.NewProduct | src/pages/AdminDashboard.tsx:75-81 | a created product has the new id, the signed-in user as creator and both times set to now, and editing it with its own form data only re-stamps it |
| AdminDashboardPage.EditRoundTrip | src/pages/AdminDashboard.tsx:59-65 | opening a product with truthy fields in the form and submitting it untouched gives back the same product with a new update time |
| AdminDashboardPage.SumYield | src/pages/AdminDashboard.tsx:119 | the yield sum is 0 for an empty catalog and the one yield for a single product |
| AdminDashboardPage.AverageYield | src/pages/AdminDashboard.tsx:117-121 | the average is 0 for an empty catalog and otherwise times the count gives the yield sum |
| AdminDashboardPage.SumYieldBounds | src/pages/AdminDashboard.tsx:119 | the yield sum lies between the count times any lower and upper bound of the yields |
| AdminDashboardPage.AverageWithinBounds | src/pages/AdminDashboard.tsx:117-121 | the average yield of a non-empty catalog lies between any lower and upper bound of its yields |
| AdminDashboardPage.HighRiskCount | src/pages/AdminDashboard.tsx:127-130 | the high-risk count never exceeds the catalog size and is 0 exactly when no product is high risk |
| AdminDashboardPage.RemoveLowersHighRisk | src/pages/AdminDashboard.tsx:98-100 | deleting never raises the high-risk count |
| AdminDashboardPage.HighRiskAppend | src/pages/AdminDashboard.tsx:127-130 | the high-risk count of two lists joined is the sum of their counts |
| AdminDashboardPage.ComputeStats | src/pages/AdminDashboard.tsx:108-142 | the cards show the catalog size, the guarded average yield, the high-risk count (never above the size) and the fixed figure '24' |
| AdminDashboardPage.InitialProducts | src/pages/AdminDashboard.tsx:24-54 | the dashboard starts with two products of distinct ids, one of them high risk |
| AdminDashboardPage.AdminDashboard.constructor | src/pages/AdminDashboard.tsx:16-54 | the dashboard starts with the two built-in products, the form hidden and nothing being edited |
| AdminDashboardPage.AdminDashboard.OpenCreateForm | src/pages/AdminDashboard.tsx:161 | "Add Product" shows the form |
| AdminDashboardPage.AdminDashboard.HandleEdit | src/pages/AdminDashboard.tsx:93-96 | editing records the product and shows the form |
| AdminDashboardPage.AdminDashboard.CancelForm | src/pages/AdminDashboard.tsx:210-213 | cancelling hides the form and forgets the product being edited |
| AdminDashboardPage.AdminDashboard.HandleProductSubmit | src/pages/AdminDashboard.tsx:56-91 | an edit replaces the products with the edited id and keeps the length; a create appends exactly one product; either way the form closes with nothing being edited |
| AdminDashboardPage.AdminDashboard.HandleDelete | src/pages/AdminDashboard.tsx:98-106 | the catalog loses every product with the id, and its high-risk count does not rise |
| ProductEditor.InitialForm | src/components/admin/ProductForm.tsx:19-28 | a new form has the defaults; an edited product's fields are kept when truthy and replaced by the defaults when falsy, so tenure, minimum, type and risk are never falsy and a maximum is present only when non-zero |
| ProductEditor.ZeroTenureBecomesDefault | src/components/admin/ProductForm.tsx:22 | editing a product with tenure 0 starts the form at 12 months |
| ProductEditor.ApplyChange | src/components/admin/ProductForm.tsx:38-40 | a change sets exactly the field it names to its value, and every other field reads as before |
| ProductEditor.ChangesCompose | src/components/admin/ProductForm.tsx:38-40 | changes to different fields commute, and of two changes to one field the later wins |
| ProductEditor.Submitted | src/components/admin/ProductForm.tsx:30-36 | submitting hands over the form with only the maximum touched: a zero maximum becomes absent and a truthy one is kept |
| ProductEditor.SubmitInitialUnchanged | src/components/admin/ProductForm.tsx:19-36 | submitting an untouched form hands over its starting values |
| ProductEditor.ProductForm.constructor | src/components/admin/ProductForm.tsx:19-28 | the form starts from the initial values for the product |
| ProductEditor.ProductForm.HandleChange | src/components/admin/ProductForm.tsx:38-40 | an input event updates its one field to the new value |
| ProductEditor.ProductForm.HandleSubmit | src/components/admin/ProductForm.tsx:30-36 | the submitted record is the normalised form |
| Auth.DecodeToken | src/contexts/AuthContext.tsx:57-65 | the token stored is the first truthy of the nested and top-level tokens, and nothing is stored when neither is truthy |
| Auth.IsValidDemo | src/contexts/AuthContext.tsx:76-79 | an accepted demo login is an admin exactly when the email is 'admin', and needs the password 'password' unless the email is 'demo@example.com' |
| Auth.DemoUser | src/contexts/AuthContext.tsx:86-94 | the demo user has the requested role and moderate risk; an admin gets 'admin-1' and balance 0, a customer 'user-1' and 50000; the typed email is kept only when it is 'demo@example.com' |
| Auth.DemoLoginCases | src/contexts/AuthContext.tsx:76-79 | a demo login succeeds exactly for customer/password as a customer, admin/password as an admin, or the demo address with any password as a customer; both named pairs are accepted and the demo address is never an admin |
| Auth.SignupUser | src/contexts/AuthContext.tsx:161-169 | a demo signup creates a customer with balance 50000, the chosen risk appetite and the typed names and email |
| Auth.Merge | src/contexts/AuthContext.tsx:192 | each field the patch supplies overrides the user's, each field it omits keeps the user's value, so an empty patch changes nothing and a balance-only patch changes only the balance |
| Auth.MergeLaws | src/contexts/AuthContext.tsx:192 | merging an empty patch changes nothing, a balance patch changes only the balance, merging is idempotent, and two merges are one merge of the combined patch |
| Auth.Session.IsAuthenticated | src/contexts/AuthContext.tsx:200 | the session is authenticated exactly when it has a user |
| Auth.Session.Restore | src/contexts/AuthContext.tsx:11-28 | the provider starts with the stored user, if any, mirrored in storage and loading over |
| Auth.Session.Login | src/contexts/AuthContext.tsx:30-105 | an answered request installs the decoded user and stores a token when one is present; otherwise login succeeds exactly for the demo credentials with the demo user, and a failure leaves the user unchanged; loading ends either way |
| Auth.Session.Signup | src/contexts/AuthContext.tsx:107-180 | an answered request installs the decoded user and token; otherwise a fresh customer is created; signup always ends signed in |
| Auth.Session.Logout | src/contexts/AuthContext.tsx:182-187 | the user and both stored entries are cleared and the session is no longer authenticated |
| Auth.Session.UpdateUser | src/contexts/AuthContext.tsx:189-196 | without a user nothing changes; otherwise the patch is merged into the user and the stored copy follows |
| Insights.MaxShare | src/components/customer/InsightsSection.tsx:100 | the largest share is at least each share and equal to one of them |
| Insights.RiskLevelOf | src/components/customer/InsightsSection.tsx:99-104 | the profile is conservative exactly when low is a maximum, balanced exactly when moderate is a maximum above low, and aggressive exactly when high exceeds both |
| Insights.MoreHighRiskNeverSafer | src/components/customer/InsightsSection.tsx:99-104 | raising the high share never moves an aggressive profile away from aggressive, nor makes a profile conservative |
| Insights.MockInsightTexts | src/components/customer/InsightsSection.tsx:80-86 | the built-in insights have five advice lines |
| Insights.MockInsights | src/components/customer/InsightsSection.tsx:72-87 | the built-in insights report 75000 invested and 12500 expected, with five advice lines |
| Insights.MockIsAggressive | src/components/customer/InsightsSection.tsx:74-78 | the built-in portfolio reads as aggressive |
| Insights.LoadedInsights | src/components/customer/InsightsSection.tsx:57-89 | a response yields `data.data`, else the body; any failure yields the built-in insights |
| Insights.InsightsSection.constructor | src/components/customer/InsightsSection.tsx:30-32 | the panel starts with no insights, loading, with no error |
| Insights.InsightsSection.BeginFetch | src/components/customer/InsightsSection.tsx:43-44 | a request starts loading and clears the error |
| Insights.InsightsSection.FinishFetch | src/components/customer/InsightsSection.tsx:57-92 | a request ends with insights installed either way, the error cleared on failure, and loading over |
| Insights.InsightsSection.FetchInsights | src/components/customer/InsightsSection.tsx:41-93 | after any outcome there are insights, no error, and loading is over |
| Routing.Guard | src/App.tsx:15-27 | a protected page renders exactly for a signed-in user whose role it admits, and every other case redirects to '/' |
| Routing.AllowedRoles | src/App.tsx:38-53 | each protected route admits one role: '/admin' exactly the admins, '/dashboard' exactly the customers |
| Routing.EachRoleOnePage | src/App.tsx:38-53 | every role is admitted to exactly one protected page, and only admins to '/admin' |
| Routing.RedirectPage | src/pages/Index.tsx:61-63 | the landing page redirects exactly when a user is signed in: admins to '/admin' and everyone else to '/dashboard' |
| Routing.RedirectTargetAdmits | src/pages/Index.tsx:63 | the page a signed-in user is sent to renders for them, and the other protected page turns them back |
| Routing.IndexPage.constructor | src/pages/Index.tsx:18-19 | the landing page starts on the first ticker entry in login mode |
| Routing.IndexPage.Tick | src/pages/Index.tsx:48-53 | a tick advances the ticker by one modulo four, wrapping after the last entry and staying in range |
| Routing.FourTicksReturn | src/pages/Index.tsx:50 | four ticks bring the ticker back to where it was |
| Routing.IndexPage.ToggleSignupMode | src/pages/Index.tsx:196 | the link flips between login and signup mode |

## Left out

- Network calls, `localStorage`, `JSON.parse`/`JSON.stringify` and `import.meta.env` are I/O. Each remote answer or stored value is a parameter: an `Option`, an `Envelope`, an `ApiResponse` or a `Lookup`.
- `Date.now()` ids and `toISOString()` timestamps are parameters (`newId`, `idSuffix`, `now`).
- Toasts, `console` logging, `setInterval`/`clearInterval`, JSX, framer-motion animation, `Intl.NumberFormat` currency formatting and `toFixed` only present values or schedule work; they carry no decision logic.
- `Promise.all` concurrency in the enrichment is modelled as a sequential map over the records, aligned by index with one lookup outcome per record.
- Stale closures are not modelled: `handlePurchase` reads the `investments` and `portfolioSummary` of its render, and the model reads the current field values. The balance debited is the one the user had when the purchase began, as in the source.
- Floating point is not modelled: money and yields are exact reals, and NaN (from `parseFloat`, from `undefined` arithmetic, or from `0/0`) is left out except where the source guards it explicitly (the empty-catalog average).
- Numeric strings from the back end (`Number(...)` around string fields) are not modelled: the record fields are already numbers.
- The client reads `response.json()` after an `ok` response; a body that fails to parse would send the purchase through the offline fallback. The model takes every `ok` body as parseable.
- Js.ToLower: lower-cases ASCII letters only, where `toLowerCase` is Unicode-aware; every status string the code compares with is ASCII.
- InvestmentHistoryView.DeriveRow: the `try`/`catch` that renders nothing for a row whose rendering throws (src/components/customer/InvestmentHistory.tsx:236-239) is left out, since no modelled reading can throw.
- Portfolio.Placeholder: the placeholder product has no `min_investment` in the source; the model uses 0, and nothing reads it.
- `Types.User.role` is a `UserRole`. A user decoded from a response is taken to be well typed, so the `user.role === "admin"` string comparison in src/pages/Index.tsx:63 coincides with the enumeration test.
- The product form's numeric inputs call `parseInt`/`parseFloat` and can produce NaN. The model takes the parsed number, or an absent maximum, as the value of a change.
- Presentation-only files have no decision logic to verify and are not part of this model: src/components/customer/PortfolioSummary.tsx, src/components/customer/RiskDistributionChart.tsx, src/components/layout/Navbar.tsx, src/components/admin/ProductList.tsx, src/components/auth/LoginForm.tsx, src/components/auth/SignupForm.tsx and src/components/auth/AuthToggle.tsx.
