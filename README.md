# acgn-stock: sell-order admission, company edit form, link-preview tags

A Dafny model of three parts of the acgn-stock exchange, with proofs about each.

- **Sell-order admission and commit** (`server/methods/order/createSellOrder.js`):
  - the guard chain `createSellOrder` runs on a market snapshot before any lock is taken;
  - the fast-fail test on four resource keys;
  - the request for two keys;
  - the shorter chain re-run under those keys;
  - the single sell order (`賣出`) that is appended when that chain passes.

  Module `SellOrderRules` holds the two chains and the price band. The band is computed in exact integer arithmetic. Module `SellOrderCommit` holds the lock registry as a class `Exchange` with a set of held keys and a sequence of orders.
- **The company edit form** (`client/company/editCompany.js`), module `EditCompany`:
  - `validateCompanyModel` is a method with the tag loop;
  - `validateProductModel` is a function;
  - `addNewTag`, and the remove-tag handler, are methods of a class `CompanyEditForm` that holds the model being edited and the tag input. Both are built on models of `String.prototype.trim`, `_.unique` and `_.without`.
- **Link-preview meta tags** (`server/startup/webMetaTag.js`), module `WebMetaTag`:
  - `extractCompanyId`, as the leftmost match of the pattern;
  - the two tag templates, with a parser that reads a tag back;
  - the three tag-group builders and the head text of the page callback. These are methods that append tag by tag, each proved equal to the rendering of a list of tags.

Each chain is related to an independent reference, a table of rules each stated on its own (`SellOrderRules.Rule`, `Holds`, `FirstViolation`). The model proves that each chain reports exactly the first rule of its table that fails. The band guards are proved equivalent to inequalities on exact rationals.

Two behaviours of the code are worth knowing:
- The locked phase re-checks only holdings, open buy orders, the company's existence and the band, and checks holdings before the buy order. It does not re-check vacation, ban or seal. The lemmas `SellOrderRules.RecheckIgnoresStatusAndSeal`, `SellOrderRules.SealedDuringWaitStillPasses` and `SellOrderRules.ChainsDisagreeOnFirstFailure` state the consequences.
- `extractCompanyId` takes the leftmost position where the whole pattern matches. That need not be the first occurrence of `/company/detail/`. `WebMetaTag.ExtractCompanyId` models it that way.

These are taken from outside the model as parameters or inputs:
- the form library's URL test: `isUrl: string -> bool`;
- the company lookup of the page callback: `getCompanyData: string -> Option<CompanyData>`;
- the database reads: `Market` snapshot values passed to the chains;
- the request path: a `pathname` argument.

## Model

| member | source | states |
|---|---|---|
| SellOrderRules.NotFoundStatus | server/methods/order/createSellOrder.js:59-70 | in either chain the reported error has status 404 exactly when the company is missing and every guard run before that test passes; `Status` gives 404 for that error and 403 for every other |
| SellOrderRules.LowerBound | server/methods/order/createSellOrder.js:74 | the lowest admitted price is at least 1; above 1 it is the floor of 0.85·L, and it is 1 only when 0.85·L < 2 |
| SellOrderRules.UpperBound | server/methods/order/createSellOrder.js:77-84 | below the threshold the highest admitted price is the ceiling of 1.3·L; otherwise it is at least 1, above 1 the ceiling of 1.15·L, and 1 only when 1.15·L ≤ 1 |
| SellOrderRules.BandCheck | server/methods/order/createSellOrder.js:74-84 | the band passes iff the price lies between the two bounds and otherwise reports one of the three band errors; `BandCheckExact` states it in exact rationals |
| SellOrderRules.CheckSellOrder | server/methods/order/createSellOrder.js:29-84 | the stage-one chain never reports ResourceBusy, always rejects a missing company or an open buy order, and accepts only positive prices and amounts with enough stocks; `CheckSellOrderIsFirstViolation` states it exactly |
| SellOrderRules.RecheckSellOrder | server/methods/order/createSellOrder.js:88-125 | the locked chain never reports ResourceBusy, always rejects a missing company or an open buy order, and accepts only with enough stocks; `RecheckSellOrderIsFirstViolation` states it exactly |
| SellOrderRules.FloorPercent | server/methods/order/createSellOrder.js:74 | the result is the floor of pct·x/100: 100q ≤ pct·x < 100q+100 |
| SellOrderRules.CeilPercent | server/methods/order/createSellOrder.js:78-82 | the result is the ceiling of pct·x/100: 100q−100 < pct·x ≤ 100q |
| SellOrderRules.LowerBoundExact | server/methods/order/createSellOrder.js:74-76 | unitPrice ≥ max(⌊0.85·L⌋, 1) iff unitPrice ≥ 1 and unitPrice+1 > 0.85·L in exact rationals |
| SellOrderRules.UpperBoundExact | server/methods/order/createSellOrder.js:77-84 | unitPrice ≤ the upper bound iff unitPrice−1 < 1.3·L below the threshold, and otherwise unitPrice ≤ 1 or unitPrice−1 < 1.15·L |
| SellOrderRules.BandCheckExact | server/methods/order/createSellOrder.js:74-84 | the band passes iff both exact bounds hold; it reports below-band iff the lower bound fails, and the regime's above-band error iff only the upper bound fails |
| SellOrderRules.BandBoundaryCases | server/methods/order/createSellOrder.js:74-84 | list price 100 in the normal regime admits 85 and 115 and rejects 84 and 116; list price 40 below threshold 50 admits 52 and rejects 53 |
| SellOrderRules.NonPositiveLowRegimeRejectsAll | server/methods/order/createSellOrder.js:77-81 | below the threshold the upper bound has no floor of 1, so a list price ≤ 0 rejects every unit price ≥ 1 |
| SellOrderRules.HasOpenBuyOrderExact | server/methods/order/createSellOrder.js:43-50 | the count of buy orders for (company, user) is positive iff the no-open-buy-order rule fails |
| SellOrderRules.StageOneFrontRules | server/methods/order/createSellOrder.js:29-50 | the first five rules of the table report vacation, ban, price, amount and open buy order, in that order |
| SellOrderRules.StageOneBackRules | server/methods/order/createSellOrder.js:51-84 | the last five rules of the table report holdings, missing company, seal and band, in that order |
| SellOrderRules.CheckSellOrderIsFirstViolation | server/methods/order/createSellOrder.js:29-84 | the stage-one chain returns exactly the error of the first failing rule of the ten-rule table, and None iff none fails |
| SellOrderRules.RecheckSellOrderIsFirstViolation | server/methods/order/createSellOrder.js:88-125 | the locked chain returns exactly the error of the first failing rule of the table holdings, buy order, company listed, lower band, upper band |
| SellOrderRules.FirstViolationSpec | server/methods/order/createSellOrder.js:29-84 | the first violation of a rule table is None iff every rule holds, and otherwise it is the error of an earliest rule that fails |
| SellOrderRules.UserStatusFirst | server/methods/order/createSellOrder.js:29-34 | vacation is rejected whatever else holds; otherwise a ban list containing deal is rejected |
| SellOrderRules.PriceAndAmountBeforeMarket | server/methods/order/createSellOrder.js:35-40 | a unit price below 1 is reported before an amount below 1, whatever the holdings, company or band |
| SellOrderRules.OpenBuyOrderAlwaysRejects | server/methods/order/createSellOrder.js:43-50 | a buy order for the same (company, user) rejects the sell in both chains; after the user and input guards it is the error reported |
| SellOrderRules.HoldingsRule | server/methods/order/createSellOrder.js:51-58 | a missing director record or stocks < amount is rejected; stocks == amount passes the rule |
| SellOrderRules.CompanyRules | server/methods/order/createSellOrder.js:59-73 | a missing company gives the 404 error; a sealed company is rejected with its name whatever the band says |
| SellOrderRules.AcceptedMeetsEveryRule | server/methods/order/createSellOrder.js:29-84 | acceptance by the stage-one chain means every rule of the table holds |
| SellOrderRules.RecheckIsWeaker | server/methods/order/createSellOrder.js:88-125 | anything the stage-one chain accepts, the locked chain accepts on the same snapshot |
| SellOrderRules.RecheckIgnoresStatusAndSeal | server/methods/order/createSellOrder.js:88-125 | changing vacation, ban or the seal flag never changes the locked chain's verdict |
| SellOrderRules.SealedDuringWaitStillPasses | server/methods/order/createSellOrder.js:104-114 | a company sealed after stage one passed is rejected by stage one but not by the locked chain |
| SellOrderRules.ChainsDisagreeOnFirstFailure | server/methods/order/createSellOrder.js:88-103 | with an open buy order and too few stocks, stage one reports the buy order and the locked chain reports the holdings |
| SellOrderCommit.RequestKeysShape | server/methods/order/createSellOrder.js:85-87 | the two requested keys are distinct and among the four fast-fail keys; season and allCompanyOrders are only tested |
| SellOrderCommit.KeysAreInjective | server/methods/order/createSellOrder.js:85-87 | different companies or users give different keys, and a company key never equals a user key |
| SellOrderCommit.CommittedSellIsNotABuyOrder | server/methods/order/createSellOrder.js:126-132 | the record appended on acceptance is stored as 賣出, so it never creates or hides an open buy order for any company and user |
| SellOrderCommit.Admission | server/methods/order/createSellOrder.js:29-85 | a stage-one error is reported as it is; after stage one passes, ResourceBusy is reported iff a fast-fail key is held, and acceptance iff none is held |
| SellOrderCommit.SellOutcome | server/methods/order/createSellOrder.js:29-125 | a stage-one error on the first snapshot is the verdict; otherwise a held fast-fail key gives ResourceBusy; otherwise the verdict is the locked chain's on the orders plus arrivals and the locked snapshot; the call is accepted iff all three stages pass; a company missing under the lock always rejects |
| SellOrderCommit.UnchangedSnapshotOutcome | server/methods/order/createSellOrder.js:29-125 | when no order is written and the market is unchanged while the request waits, the whole call's verdict is the verdict of admission |
| SellOrderCommit.BuyOrderDuringWaitRejects | server/methods/order/createSellOrder.js:93-103 | a buy order for the same (company, user) written while the request waited rejects the call; with the holdings still sufficient, the error is BuyOrderExists |
| SellOrderCommit.AcceptedOutcome | server/methods/order/createSellOrder.js:29-132 | an accepted call met every stage-one rule, found no fast-fail key held, and met every locked rule on the orders and market read under the lock |
| SellOrderCommit.BusyKeyRejects | server/methods/order/createSellOrder.js:85 | once stage one passes, any held fast-fail key makes the call fail with ResourceBusy |
| SellOrderCommit.Exchange.IsLocked | server/methods/order/createSellOrder.js:85 | the test is true iff some of the keys is held |
| SellOrderCommit.Exchange.Request | server/methods/order/createSellOrder.js:87 | free keys are granted together: held grows by exactly those keys |
| SellOrderCommit.Exchange.Release | server/methods/order/createSellOrder.js:133 | held shrinks by exactly the released keys |
| SellOrderCommit.Exchange.AwaitKeys | server/methods/order/createSellOrder.js:87 | while the request waits, the orders gain exactly what other requests write |
| SellOrderCommit.Exchange.CreateOrder | server/methods/order/createSellOrder.js:126-132 | the orders gain exactly the one record at the end |
| SellOrderCommit.Exchange.CommitLocked | server/methods/order/createSellOrder.js:87-134 | the verdict is the locked chain on the orders before the call; one sell order is appended iff it passes; the held keys are as before |
| SellOrderCommit.Exchange.CreateSellOrder | server/methods/order/createSellOrder.js:27-135 | the verdict is stage one, then the fast-fail test, then the locked chain on the orders and market read under the lock; a rejection before the wait changes nothing, a rejection under the lock adds no order of this call, and acceptance appends exactly one sell order after what others wrote during the wait |
| SellOrderCommit.ResubmitRejected | server/methods/order/createSellOrder.js:29-134 | a rejected call resubmitted on the same snapshot, with nothing written in between, is rejected with the same error and leaves the orders and the registry unchanged |
| EditCompany.CompanyFieldError | client/company/editCompany.js:51-76 | each field's error is one of the form's five messages; each picture link fails iff it is non-empty and not a url; the description fails iff its length is outside 10..3000, with the too-short message below 10 and the too-long message above 3000 |
| EditCompany.CompanyErrors | client/company/editCompany.js:49-76 | the error map is empty iff no field fails, and each entry holds that field's message |
| EditCompany.CompanyErrorsByField | client/company/editCompany.js:49-76 | the error map has an entry for a field iff that field's guard fails, and the entry holds that guard's message |
| EditCompany.CheckTags | client/company/editCompany.js:51-60 | the tags entry is "too many tags" for more than 50 tags; otherwise "tag too long" iff some tag has more than 50 characters |
| EditCompany.ValidateCompanyModel | client/company/editCompany.js:49-81 | the result is None iff the error map is empty, and otherwise the map of every failing field to its message |
| EditCompany.TagRules | client/company/editCompany.js:51-60 | more than 50 tags is one error whatever the tags say; otherwise any tag over 50 characters sets the tags error, and none sets nothing |
| EditCompany.PictureAndDescriptionRules | client/company/editCompany.js:61-76 | empty picture links are never tested; the description is an error iff it has fewer than 10 or more than 3000 characters |
| EditCompany.ValidateProductModel | client/company/editCompany.js:235-259 | None iff the name has 4 to 255 characters, the URL passes and the description has at most 500 characters; otherwise which keys are present and their messages, the description error replacing any name error |
| EditCompany.Trim | client/company/editCompany.js:157 | the trimmed input is empty iff every character is white space; a non-empty result starts and ends with a non-white-space character |
| EditCompany.TrimIsSlice | client/company/editCompany.js:157 | trimming keeps one contiguous slice of the input and removes only white space before and after it |
| EditCompany.Unique | client/company/editCompany.js:164 | the deduplicated list has no duplicates, the same elements as the input, and is no longer, and it lists them in the order of their first occurrences in the input |
| EditCompany.UniqueOfDuplicateFree | client/company/editCompany.js:164 | a list without duplicates is unchanged by deduplication |
| EditCompany.AddToDuplicateFree | client/company/editCompany.js:163-164 | pushing a tag onto a duplicate-free list and deduplicating appends it if new and changes nothing otherwise |
| EditCompany.Without | client/company/editCompany.js:118 | the removed tag no longer occurs, and every other tag occurs iff it did before |
| EditCompany.WithoutConcat | client/company/editCompany.js:118 | removal works piece by piece, so the kept tags stay in their original order |
| EditCompany.WithoutCounts | client/company/editCompany.js:118 | removal deletes every copy of the tag and keeps every copy of each other tag |
| EditCompany.CompanyEditForm.AddNewTag | client/company/editCompany.js:154-167 | an input that trims to nothing raises the alert and changes nothing; otherwise the tags become the deduplicated tags plus the trimmed tag, which then occurs, with no duplicates, and the input is cleared |
| EditCompany.CompanyEditForm.RemoveTag | client/company/editCompany.js:115-120 | only the tags change, to the tags with every occurrence of the tag removed |
| WebMetaTag.SearchFrom | server/startup/webMetaTag.js:82-83 | the search finds the leftmost position where the pattern matches, or proves there is none |
| WebMetaTag.MatchDetailPath | server/startup/webMetaTag.js:82-83 | a match exists iff the pattern matches at some position; it is then taken at the leftmost such position and is exactly the 33 matched characters followed by the 17 captured after the prefix |
| WebMetaTag.ExtractCompanyId | server/startup/webMetaTag.js:81-89 | an id is returned iff the pattern matches somewhere; it is the 17 alphabet characters after the prefix at the leftmost match |
| WebMetaTag.MatchLengthTestIsDead | server/startup/webMetaTag.js:84-88 | the length guard never rejects, so a match always yields its capture group |
| WebMetaTag.AlphabetExclusions | server/startup/webMetaTag.js:82 | the alphabet leaves out I, O, U, V and l and contains every other ASCII digit and letter |
| WebMetaTag.UnanchoredMatch | server/startup/webMetaTag.js:82-83 | when no match starts inside the text before the prefix, that text and any text after the 17 characters do not stop the id being returned |
| WebMetaTag.ForeignCharacterBlocksMatch | server/startup/webMetaTag.js:82 | one character outside the alphabet among the 17 rules out a match at that position |
| WebMetaTag.MetaRoundTrip | server/startup/webMetaTag.js:58-64 | a key without quotes and any content are read back from the tag built from them |
| WebMetaTag.CreateMetaProperty | server/startup/webMetaTag.js:58-60 | no contract of its own: `CreateMetaPropertyRoundTrip` states that the tag reads back as its property and content, and `UnescapedQuoteIsAmbiguous` that nothing is escaped |
| WebMetaTag.CreateMetaName | server/startup/webMetaTag.js:62-64 | no contract of its own: `CreateMetaNameRoundTrip` states that the tag reads back as its name and content |
| WebMetaTag.CreateMetaPropertyRoundTrip | server/startup/webMetaTag.js:58-60 | createMetaProperty's property and content are recovered from its text |
| WebMetaTag.CreateMetaNameRoundTrip | server/startup/webMetaTag.js:62-64 | createMetaName's name and content are recovered from its text |
| WebMetaTag.UnescapedQuoteIsAmbiguous | server/startup/webMetaTag.js:58-60 | nothing is escaped: two different (property, content) pairs can produce the same tag |
| WebMetaTag.RenderAllConcat | server/startup/webMetaTag.js:10-16 | rendering a concatenation of tag lists is the concatenation of their renderings |
| WebMetaTag.NatToString | server/startup/webMetaTag.js:52 | a number is written as at least one decimal digit, with no leading zero: a text starting with 0 is the single digit 0, written for the number 0 |
| WebMetaTag.NatToStringRoundTrip | server/startup/webMetaTag.js:52 | the digits written for a number read back as that number |
| WebMetaTag.IntToString | server/startup/webMetaTag.js:52 | no contract of its own: how the template writes an integer; its meaning is stated by IntToStringReadsBack |
| WebMetaTag.IntToStringReadsBack | server/startup/webMetaTag.js:52 | the text written for an integer starts with a minus sign iff the integer is negative, and its digits read back as the integer's absolute value |
| WebMetaTag.CreateCompanyDescription | server/startup/webMetaTag.js:51-56 | the description starts with the price label followed by the list price's digits, and ends with the company's own text, unescaped, followed by a newline and two spaces |
| WebMetaTag.GetCommonMetaTag | server/startup/webMetaTag.js:20-28 | the text is the rendering of twitter:card, og:site_name, og:image:width and og:image:height, in that order |
| WebMetaTag.GetDefaultMetaTag | server/startup/webMetaTag.js:30-37 | the text is the rendering of the exchange's own og:title, og:image and og:description |
| WebMetaTag.PictureTagReadsBack | server/startup/webMetaTag.js:43-44 | the og:image tag reads back as the small picture when there is one, and as the text undefined when there is none |
| WebMetaTag.MissingPictureRendersUndefined | server/startup/webMetaTag.js:43-44 | a company without a small picture gets og:image and og:image:url tags whose content is undefined |
| WebMetaTag.GetCompanyMetaTag | server/startup/webMetaTag.js:39-48 | the text is the rendering of the company's og:title, og:image, og:image:url and og:description, the two image tags carrying the small picture or undefined |
| WebMetaTag.LookupCompany | server/startup/webMetaTag.js:7-8 | no company is looked up for a path where the pattern matches nowhere; where it matches, the result is the lookup of the 17 characters after the prefix at the leftmost match |
| WebMetaTag.PageTags | server/startup/webMetaTag.js:10-16 | the head's tags are the common tags followed by exactly the company tags when a company was found, and exactly the default tags otherwise |
| WebMetaTag.PageHead | server/startup/webMetaTag.js:5-18 | the head is the rendering of the common tags followed by the company tags when an id was extracted and found, else the default tags |
| WebMetaTag.CountInPage | server/startup/webMetaTag.js:10-16 | the head carries og:title and og:description once each, and og:image:url once iff a company was found |
| WebMetaTag.PageTagsChooseOneGroup | server/startup/webMetaTag.js:10-16 | the head starts with the common tags and never holds both groups: one og:title, one og:description, og:image:url only for a company |

## Left out

- The Meteor method wrapper and its `check`/`Match` argument validation (createSellOrder.js lines 14-26) are library boundary parsing. The model takes integer prices and amounts as given.
- `limitMethod` rate limiting (line 137) is library code that depends on time. It is not part of this model.
- `debug.log` is a log side effect with no bearing on the outcome.
- Database reads are inputs. `dbDirectors.findOne`, `dbCompanies.findOne` and `dbVariables.get('lowPriceThreshold')` are read from a `Market` snapshot, one before the lock and one under it. The threshold is read as part of each snapshot rather than by a separate call. `dbOrders.find` reads the `orders` field of `Exchange`. The orders other requests write while a request waits are the `arrivals` argument of `CreateSellOrder`, so the locked check sees them. Orders removed by other processes during the wait are not modelled.
- The resource manager is reduced to the set of held keys. Its queueing, fairness and waiting are concurrency, and are not part of this model. `SellOrderCommit.Exchange.Request` is called only when its keys are free, and the call is granted at once.
- SellOrderCommit.Exchange.CommitLocked: releases the keys on the rejection path too. In the source the callback calls `release()` only after `createOrder`, so a throw relies on the resource manager to free the keys. That code is not part of this model.
- The internals of `createOrder` are reduced to appending one order record. These include any stock bookkeeping. The property that two concurrent sells cannot both spend the same stocks depends on them, so it is not modelled.
- SellOrderRules.Status: gives no status code for ResourceBusy, whose error the resource manager raises.
- Error messages are represented by one `SellError` constructor per rule, not by their text. A rule checked in both chains, such as the holdings rule at lines 57 and 94, has one constructor for both throw sites. `PriceBelowBand` and `PriceAboveBand` are distinguished only in the model. The source throws the same 403 with the same message for both, at lines 75 and 83 and again at 116 and 124, so a caller cannot tell them apart.
- The band is computed in exact integer arithmetic, not in JavaScript doubles. The double products can differ from the exact value by one unit in the last place; `100 * 1.15` is `114.99999999999999`. Fractional list prices are not modelled.
- String lengths count Dafny characters. JavaScript counts UTF-16 code units, so the two differ for characters outside the Basic Multilingual Plane (the 50, 10, 3000, 4, 255 and 500 limits and the regular expression).
- `SimpleSchema.RegEx.Url` is the abstract predicate `isUrl`.
- In the edit form, missing or `undefined` string fields (`pictureSmall`, `description`, `productName`) are the empty string. The form tests these fields only for being empty or for their length, so the two behave alike there. A missing `description` or `tags`, on which the source would throw, is not modelled.
- EditCompany.ValidateProductModel: `url` is never tested for being empty. The model passes the field's text to `isUrl` as it is, as line 248 does. A new product starts with `url: ''` (line 182), which is what the model takes. A `url` that is `undefined` would be tested as the text undefined, and that case is not modelled.
- WebMetaTag.GetCompanyMetaTag: only `pictureSmall` is optional, and renders as undefined when missing. `companyName`, `description`, `listPrice`, `capital` and `totalValue` are assumed present. A missing one would also be written as the text undefined.
- Blaze helpers and events, `ReactiveVar`, `FlowRouter`, `alertDialog`, `Meteor.customCall`, the preview-picture handlers and jQuery DOM access are UI plumbing. The keypress handler that calls `addNewTag` on Enter is included in that plumbing. The alert is returned as a value instead of shown.
- EditCompany.CompanyEditForm.AddNewTag: does not model that `_.clone` is shallow, so `push` also appends the tag to the array of the model object held before the update.
- WebMetaTag.IntToString: writes every integer in plain decimal digits. It does not model JavaScript's exponent form for very large numbers, or non-integer amounts.
- The `onPageLoad` sink, `sink.appendToHead` and access to the request URL are the hook's I/O. `getCompanyData` is the parameter `getCompanyData`. The misspelled `fileds` projection only affects which fields are fetched.
- WebMetaTag.CreateCompanyDescription: modelled as written. The label 市值 is followed by `capital` and the label 資本額 by `totalValue`. Whether the two are swapped cannot be told from the code, so no property depends on it.
