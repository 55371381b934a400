# Contract dashboard: a verified model of its rules and state

The application is a React dashboard for distributors of phones. They upload
contract PDFs, browse them, compare two versions, group them by brand and
series, and ask a canned assistant about their terms. This Dafny project
models the logic under the screens:

- **The contract store** (`ContractStore`, `Metadata`, `Rules`). The upload
  lower-cases the file name and applies ordered keyword rules and regular
  expressions to find the brand, series, model, document type and version.
  It draws key terms from fixed pools, rates the risk from the margin and
  the payment period, and puts the new contract at the front of the list.
  The store also marks alerts read, appends chat messages and searches
  contracts. `Store` is a class whose methods replace its fields.
  `DetectBrand`, `DetectDocumentType`, `DetectMetadata` and `AssessRisk`
  apply the code's if/else-if chains step by step. They are proved against
  first-match keyword tables (`Rules.Lookup`), and the tables' properties
  are proved as lemmas.
- **The term comparison** (`Comparison`). `getChangeType` classifies two
  versions of a term as neutral, changed, an improvement or a concern,
  depending on the direction in which that term is better. The
  per-field table of `handleCompare` is built from it.
- **The assistant** (`Chat`). The first topic keyword in the lower-cased
  question picks a canned reply. Missing terms fall back to fixed defaults,
  and the expiry reply counts whole days left. `handleSend` (the class
  `ChatSession`) records the question at once. It schedules the reply, which
  `DeliverReply` appends later.
- **The dashboard page** (`Dashboard`): the search filter, the status
  counters, the status tabs, the unread-alert badge, and the tab switch
  that a search makes (the class `DashboardView`).
- **The clustering dialog** (`Clustering`). `getClusteredData` fills a
  record keyed by brand id and then by series id with two nested loops.
  It is a method proved against a fold over the inputs. The brand and
  series statistics are functions.
- **The session store** (`Auth`): sign-in against three demonstration
  accounts, sign-out, and the theme flag (the class `AuthStore`).

`Text` models the JavaScript string primitives the code relies on:
`toLowerCase`, `includes`, `trim`, `\s` and `\d`, `parseInt`,
`parseFloat`, and decimal rendering in template literals. `Lists` models
`filter`, `map`, counting with `filter(...).length`, and
`[...new Set(xs)]`. `Domain` holds the records of `src/types/index.ts` and
the rows and enumerations of `src/integrations/supabase/types.ts`.

Some things that would run at execution time are parameters:

- `Math.random()` is a `TermDraw`, which holds an index into each term pool,
  the exclusivity coin and the order quantity.
- Each `Date.now()` or `new Date()` reading is its own parameter, in milliseconds. An upload reads the clock three times: for the id, the upload date and the expiry date (`UploadClock`). A chat message reads it twice: for its id and its timestamp (`Stamp`). The expiry reply reads it once (`now`). The model does not assume these readings agree or increase.
- `toLocaleDateString()` is an `expiryText` parameter.
- The 1.5-second timer in `handleSend` is a queue of pending replies.
  `ChatSession.DeliverReply` delivers the oldest one.

The model follows the code at three points where a reading of the intent would differ:

- The backend schema makes `status` nullable, so the dashboard's three
  status counters add up to the total only when every row has a status.
  `StatsAddUp` counts the rows without a status alongside them.
- `!a.is_read` also counts an alert whose flag is `null` as unread.
- With the default direction, two different numeric values are "neutral".

## Model

| member | source | states |
|---|---|---|
| Text.ToLower | src/store/contractStore.ts:25 | Lower-casing keeps the length, maps each character on its own, and leaves no upper-case ASCII letter. |
| Text.ToLowerIdempotent | src/store/contractStore.ts:180 | Lower-casing an already lower-cased string changes nothing. |
| Text.OrElse | src/components/contracts/ChatModal.tsx:73 | `v \|\| fallback` gives the fallback exactly when the value is missing or empty, and the value otherwise. |
| Text.ContainsIff | src/store/contractStore.ts:32 | `includes` holds exactly when the substring occurs at some index. |
| Text.ContainsTransitive | src/pages/Dashboard.tsx:58-60 | An occurrence inside an included string is an occurrence in the including one. |
| Text.TrimStart | src/components/contracts/ChatModal.tsx:38 | The result is a suffix; everything dropped is white space; the result starts with a non-space. |
| Text.TrimEnd | src/components/contracts/ChatModal.tsx:38 | The result is a prefix; everything dropped is white space; the result ends with a non-space. |
| Text.TrimEmptyIff | src/components/contracts/ChatModal.tsx:38 | `!input.trim()` holds exactly when every character of the input is white space. |
| Text.TrimStartOfSpaces | src/store/contractStore.ts:35 | Trimming the start of white space followed by a non-space leaves exactly the rest. |
| Text.NatToString | src/store/contractStore.ts:131 | The rendering of a number is a non-empty digit string without a leading zero. |
| Text.NatToStringRoundTrip | src/store/contractStore.ts:149 | Reading back the digits of the rendering of n gives n. |
| Text.IntToString | src/components/contracts/ChatModal.tsx:102 | The rendering of an integer starts with a minus sign exactly when the integer is negative. |
| Text.IntToStringRoundTrip | src/components/contracts/ChatModal.tsx:100-102 | `parseInt` of a rendered integer, sign included, followed by a non-digit gives the integer back. |
| Text.ParseIntOfMinus | src/components/contracts/ChatModal.tsx:100-102 | `parseInt` reads a minus sign followed by a digit run as the negated value of the run. |
| Text.DigitRun | src/store/contractStore.ts:35 | The longest prefix made of digits: a prefix, all digits, and followed by a non-digit or the end. |
| Text.ParseIntOfRendered | src/store/contractStore.ts:120-121 | `parseInt` of a rendered count followed by a non-digit unit returns that count. |
| Text.ParseDecimal | src/components/contracts/ContractComparison.tsx:68-69 | `parseFloat` of digits, a point and digits, followed by a non-digit, gives their exact decimal value. |
| Text.ParseFloatOfDigitStart | src/components/contracts/ContractComparison.tsx:68-69 | A text starting with a digit is read by `parseFloat` without sign or white-space handling. |
| Lists.Filter | src/pages/Dashboard.tsx:56-63 | Every kept element is in the list and passes the test, and every element that passes is kept. |
| Lists.FilterIsSublist | src/pages/Dashboard.tsx:56 | Filtering keeps the survivors in their original order. |
| Lists.FilterConcat | src/components/contracts/ChatModal.tsx:29 | Filtering a concatenation is concatenating the filtered halves. |
| Lists.FilterCount | src/pages/Dashboard.tsx:56-63 | Filtering keeps every passing element as many times as the list holds it, and no failing one. |
| Lists.FilterCounts | src/pages/Dashboard.tsx:56-63 | The same count for every element at once. |
| Lists.CountPositive | src/pages/Dashboard.tsx:211 | A filtered count is positive exactly when some element passes. |
| Lists.CountDisjoint | src/components/contracts/ContractClustering.tsx:54-55 | Two tests that never both hold count at most the whole list together. |
| Lists.CountPartition4 | src/pages/Dashboard.tsx:66-71 | Four tests that each element passes exactly once split the list's length among them. |
| Lists.Distinct | src/components/contracts/ContractClustering.tsx:67 | `[...new Set(xs)]` has no duplicates and holds exactly the elements of xs. |
| Lists.DistinctPrefix | src/components/contracts/ContractClustering.tsx:67 | The distinct elements of a prefix are a prefix of the distinct elements, so the set keeps first-occurrence order. |
| Lists.FilterNoDuplicates | src/components/contracts/ContractClustering.tsx:67 | Filtering a list without duplicates leaves none. |
| Lists.Map | src/components/contracts/ContractClustering.tsx:67 | `map` keeps the length and applies the function at every index. |
| Rules.AnyContainsIff | src/store/contractStore.ts:56 | A rule with several keywords fires exactly when the text includes one of them. |
| Rules.FirstHit | src/store/contractStore.ts:32-92 | The index found is the first rule that fires; none is found exactly when no rule fires. |
| Rules.LookupIsFirstHit | src/store/contractStore.ts:32-92 | An if/else-if chain over the table yields the first firing rule's outcome, else the default. |
| Rules.LookupAt | src/store/contractStore.ts:32-92 | A rule that fires with no earlier rule firing decides the result. |
| Rules.LookupNone | src/store/contractStore.ts:26-28 | When no rule fires, the chain yields its default. |
| Metadata.FindFrom | src/store/contractStore.ts:35 | `match` finds the leftmost index from which the pattern matches, and nothing when it matches nowhere. |
| Metadata.SearchFinds | src/store/contractStore.ts:36 | A pattern that matches at some index makes `match` succeed. |
| Metadata.SearchLeftmost | src/store/contractStore.ts:35 | A match with no match before it is the one `match` returns. |
| Metadata.YearTokenShape | src/store/contractStore.ts:104 | A match of `/20\d{2}/` is "20" followed by two digits. |
| Metadata.NumberAfterMatch | src/store/contractStore.ts:35 | A keyword, any white space and a digit run followed by a non-digit match `/kw\s*(\d+)/` at the keyword, capturing exactly the digit run. |
| Metadata.FamilyChain | src/store/contractStore.ts:32-92 | The brand table is the code's chain: iphone, realme, samsung/galaxy, oneplus, xiaomi/redmi, first hit wins. |
| Metadata.ModelChain | src/store/contractStore.ts:40-81 | Each brand's model table is the code's chain of model tests, with "Standard" as the fallback. |
| Metadata.SeriesChain | src/store/contractStore.ts:35-91 | Each brand's series table is the code's chain of series tests. |
| Metadata.DocumentChain | src/store/contractStore.ts:95-101 | The document-type table is the code's chain, with commission as the default. |
| Metadata.UnknownFallback | src/store/contractStore.ts:26-28 | Without a brand keyword the brand and series are "Unknown" and the model is "Standard". |
| Metadata.IphoneFirst | src/store/contractStore.ts:32-33 | A name that mentions "iphone" is Apple's, whatever other brand it mentions. |
| Metadata.ProMaxNotShadowed | src/store/contractStore.ts:40-41 | An iPhone name with "pro max" has model "Pro Max", even though it also contains "pro". |
| Metadata.IphoneModels | src/store/contractStore.ts:40-46 | For iPhones: "Pro" iff "pro" without "pro max"; "Plus" iff "plus" without "pro"; "Standard" iff neither. |
| Metadata.ProMaxHasPro | src/store/contractStore.ts:40-43 | Every name containing "pro max" contains "pro". |
| Metadata.IphoneSeriesNumber | src/store/contractStore.ts:35-38 | A name containing "iphone" whose `/iphone\s*(\d+)/` capture is ds is Apple's with series "iPhone " + ds, the digits as written, leading zeros kept. |
| Metadata.IphoneSeriesAt | src/store/contractStore.ts:35-38 | A name whose first "iphone" is followed by white space and a digit run gets series "iPhone " and that run, wherever the keyword sits. |
| Metadata.CaptureAtFirstKeyword | src/store/contractStore.ts:35 | At the first occurrence of a keyword followed by white space and a digit run, `match` of `/kw\s*(\d+)/` captures exactly that run. |
| Metadata.NoMatchBefore | src/store/contractStore.ts:35 | Before the first occurrence of its keyword, `/kw\s*(\d+)/` matches at no index. |
| Metadata.IphoneSeriesUnknown | src/store/contractStore.ts:35-38 | An iPhone name with no number after the keyword has series "Unknown". |
| Metadata.SamsungGuardImpliesMatch | src/store/contractStore.ts:58-59 | When the name includes "s2", `/s(\d+)/` always matches. |
| Metadata.SamsungSeries | src/store/contractStore.ts:58-62 | A Samsung name with "s2" gets "Galaxy S" followed by a non-empty run of digits. |
| Metadata.XiaomiBranchHasMi | src/store/contractStore.ts:82-86 | On the Xiaomi/Redmi branch the test `includes('mi')` always holds. |
| Metadata.XiaomiSeries | src/store/contractStore.ts:84-91 | Without "note", a Xiaomi/Redmi series is always the "Mi" number match, or "Unknown" when no number follows. |
| Metadata.DocumentTypeRules | src/store/contractStore.ts:95-101 | Service iff "service" without "commission"; license iff "license" or "distribution" without either; commission otherwise. |
| Metadata.VersionRule | src/store/contractStore.ts:104-105 | With no `/20\d{2}/` token the version is "2025.1"; otherwise it is the leftmost such token followed by ".1", so "20", two digits and ".1". |
| Metadata.RiskClassification | src/store/contractStore.ts:119-127 | Low iff margin >= 12 and days <= 45; high iff not low and (margin < 10 or days >= 90); medium iff neither. |
| Metadata.RiskMonotoneInMargin | src/store/contractStore.ts:123-127 | Raising the margin never worsens the risk. |
| Metadata.RiskMonotoneInDays | src/store/contractStore.ts:123-127 | Lengthening the payment period never improves the risk. |
| Metadata.MarginPoolValues | src/store/contractStore.ts:108 | `parseInt` reads 8, 10, 12, 15 and 18 from the margin pool. |
| Metadata.PaymentPoolValues | src/store/contractStore.ts:109 | `parseInt` reads 30, 45, 60 and 90 from the payment pool. |
| Metadata.DrawnRisk | src/store/contractStore.ts:108-127 | For drawn terms: low iff a margin of at least 12% with at most 45 days; high iff otherwise 8% or 90 days. |
| Metadata.SeedRisksByRule | src/data/mockData.ts:93-120 | The rule rates 9%/90 days high and 15%/45 days low, the reverse of the two seed contracts with those terms; 10%/60 days rates medium. |
| ContractStore.Hundredths | src/store/contractStore.ts:141 | `toFixed(2)` of size/1024/1024 picks the integer nearest to 100 times the size in MiB. |
| ContractStore.TwoDigits | src/store/contractStore.ts:141 | The two decimals of the label are two digits denoting the hundredths. |
| ContractStore.ParseTwoDecimals | src/store/contractStore.ts:141 | A number written with two decimals reads back as that many hundredths. |
| ContractStore.FileSizeLabelValue | src/store/contractStore.ts:141 | The number in the file-size label is the size in MiB to within half a hundredth. |
| ContractStore.FileSizeLabelWhole | src/store/contractStore.ts:141 | A size of whole mebibytes is labelled with that number and ".00 MB". |
| ContractStore.NewContractShape | src/store/contractStore.ts:130-142 | The new contract keeps the uploaded name, gets its metadata from the lower-cased name, is active, has id "contract-" and the id reading, and expires a year after the expiry reading, so at least a year after upload when the clock does not go back. |
| ContractStore.NewContractTerms | src/store/contractStore.ts:143-151 | Every term comes from its pool; the order quantity reads back in [50, 250); the warranty is "24 months" iff the contract is a service contract, else "12 months". |
| ContractStore.DrawnTermsInPools | src/store/contractStore.ts:108-116 | The drawn terms lie in their pools, and the order quantity and warranty are as above. |
| ContractStore.NewContractRisk | src/store/contractStore.ts:119-127 | The new contract's risk is low or high exactly as the rule states it for the drawn margin and period. |
| ContractStore.DetectBrand | src/store/contractStore.ts:26-92 | The step-by-step brand, series and model assignments give the values of the brand tables. |
| ContractStore.DetectDocumentType | src/store/contractStore.ts:95-101 | The step-by-step document-type assignments give the table's value. |
| ContractStore.DetectMetadata | src/store/contractStore.ts:25-105 | Everything inferred from the name is the metadata of the lower-cased name. |
| ContractStore.AssessRisk | src/store/contractStore.ts:119-127 | The step-by-step risk assignment gives the rule's rating of what `parseInt` reads; a `NaN` fails every comparison. |
| ContractStore.MarkedRead | src/store/contractStore.ts:164-170 | Same length and order; an alert becomes read exactly when it was read or has the id; nothing else in an alert changes. |
| ContractStore.MarkedReadIdempotent | src/store/contractStore.ts:164-170 | Marking the same id twice is marking it once. |
| ContractStore.MarkedReadUnknown | src/store/contractStore.ts:164-170 | An id no alert carries changes nothing. |
| ContractStore.MarkedReadCommutes | src/store/contractStore.ts:164-170 | Marking two ids in either order gives the same alerts. |
| ContractStore.Store.constructor | src/store/contractStore.ts:17-21 | The store starts with the seed contracts and alerts, no messages and no selection. |
| ContractStore.Store.UploadContract | src/store/contractStore.ts:23-157 | The new contract is put in front of the old list; alerts, messages and the selection are unchanged. |
| ContractStore.Store.SelectContract | src/store/contractStore.ts:160-162 | Only the selection changes, to the given contract or to none. |
| ContractStore.Store.MarkAlertAsRead | src/store/contractStore.ts:164-170 | The alerts become `MarkedRead` of the old alerts; nothing else changes. |
| ContractStore.Store.AddChatMessage | src/store/contractStore.ts:172-176 | The message is appended at the end of the conversation; nothing else changes. |
| ContractStore.Store.SearchContracts | src/store/contractStore.ts:178-187 | An order-preserving sublist holding each contract whose name, brand, series or model includes the lower-cased query as often as the list does, and no other. |
| ContractStore.SearchEmptyQuery | src/store/contractStore.ts:181-186 | An empty query finds every contract. |
| ContractStore.SearchIgnoresCase | src/store/contractStore.ts:180 | A query and its lower-cased form find the same contracts. |
| ContractStore.SearchNarrows | src/store/contractStore.ts:181-186 | Whatever a query finds, every query it includes also finds. |
| Comparison.NeutralCases | src/components/contracts/ContractComparison.tsx:65-66 | Equal values, including two nulls, and a missing or empty value are neutral. |
| Comparison.ChangedIff | src/components/contracts/ContractComparison.tsx:68-71 | "changed" exactly for two present, different values one of which lacks a leading number. |
| Comparison.HigherRule | src/components/contracts/ContractComparison.tsx:73-74 | Direction "higher": an improvement iff the new number is larger, a concern iff it is not. |
| Comparison.LowerRule | src/components/contracts/ContractComparison.tsx:75-76 | Direction "lower": an improvement iff the new number is smaller, a concern iff it is not. |
| Comparison.DefaultDirectionNeverRates | src/components/contracts/ContractComparison.tsx:64-79 | With the default direction the result is only ever neutral or changed. |
| Comparison.SameNumberIsConcern | src/components/contracts/ContractComparison.tsx:73-76 | Different texts with the same leading number are a concern in either rated direction. |
| Comparison.SwapFlips | src/components/contracts/ContractComparison.tsx:65-79 | Swapping the versions swaps improvement and concern and keeps every other outcome, when the numbers differ. |
| Comparison.ChangeTypeReflexive | src/components/contracts/ContractComparison.tsx:65 | A value compared with itself is neutral. |
| Comparison.HandleCompare | src/components/contracts/ContractComparison.tsx:20-21 | A table is built exactly when two contracts are selected. |
| Comparison.CompareSelf | src/components/contracts/ContractComparison.tsx:27-58 | Comparing a contract with itself gives neutral in all six rows. |
| Comparison.RatedRows | src/components/contracts/ContractComparison.tsx:33-52 | Payment terms, territory and exclusivity are at most "changed"; exclusivity is neutral iff both flags are equal. |
| Comparison.CompareSwap | src/components/contracts/ContractComparison.tsx:27-58 | Swapping the two contracts flips improvement and concern in every row whose numbers differ. |
| Comparison.DefaultDirectionNumeric | src/components/contracts/ContractComparison.tsx:64-79 | Two different numeric terms are neutral under the default direction. |
| Comparison.PaymentShorteningIsNeutral | src/components/contracts/ContractComparison.tsx:33-37 | Payment terms "60 days" to "30 days" compare as neutral. |
| Chat.MarginReply | src/components/contracts/ChatModal.tsx:71-76 | The margin reply quotes a clause. |
| Chat.ServiceReply | src/components/contracts/ChatModal.tsx:78-83 | The service reply quotes a clause. |
| Chat.TerritoryReply | src/components/contracts/ChatModal.tsx:85-90 | The territory reply quotes a clause. |
| Chat.PaymentReply | src/components/contracts/ChatModal.tsx:92-97 | The payment reply quotes a clause. |
| Chat.DaysUntilExpiry | src/components/contracts/ChatModal.tsx:100 | The whole days left, rounded down: days * 86400000 <= expiry - now < (days + 1) * 86400000. |
| Chat.ExpiryReply | src/components/contracts/ChatModal.tsx:99-105 | The expiry reply quotes a clause. |
| Chat.GeneralReply | src/components/contracts/ChatModal.tsx:107-110 | The general reply quotes no clause. |
| Chat.TopicChain | src/components/contracts/ChatModal.tsx:69-110 | The topic table is the code's chain: margin/commission, sla/service, territory/rights, payment/terms, expire/renewal, else general. |
| Chat.ResponseFollowsTopic | src/components/contracts/ChatModal.tsx:68-110 | The reply is the answer to the topic the table selects for the lower-cased question. |
| Chat.AnswerClause | src/components/contracts/ChatModal.tsx:74-109 | An answer has no clause exactly when it is the general one. |
| Chat.ClauseIffTopic | src/components/contracts/ChatModal.tsx:74-109 | A reply quotes a clause exactly when the question mentions a topic. |
| Chat.SlaShadows | src/components/contracts/ChatModal.tsx:71-78 | Any question containing "sla" without "margin" or "commission" is answered about service levels. |
| Chat.TopicIgnoresCase | src/components/contracts/ChatModal.tsx:69 | A question and its lower-cased form get the same reply. |
| Chat.MarginQuoted | src/components/contracts/ChatModal.tsx:73-74 | The reply shows the margin in bold, "10%" when there is none, and the clause quotes the same. |
| Chat.ServiceQuoted | src/components/contracts/ChatModal.tsx:80-81 | The reply shows the SLA time, defaulting to "24 hour"; the clause defaults to "24 hours". |
| Chat.TerritoryQuoted | src/components/contracts/ChatModal.tsx:87-88 | The reply shows the territory, defaulting to "1 state"; the clause defaults to "designated territory". |
| Chat.PaymentQuoted | src/components/contracts/ChatModal.tsx:94-95 | The reply and the clause show the payment period, defaulting to "60 days". |
| Chat.RenewalWarning | src/components/contracts/ChatModal.tsx:100-102 | The renewal warning ends the reply exactly when fewer than 60 whole days are left, that is when expiry is under 60 days away. |
| Chat.ExpiryQuoted | src/components/contracts/ChatModal.tsx:99-105 | The expiry reply shows the series and, in bold, the whole days left as `DaysUntilExpiry` counts them; the clause shows the expiry text. |
| Chat.ContractMessages | src/components/contracts/ChatModal.tsx:29 | An order-preserving sublist holding each message of that contract as often as the list does, and no other. |
| Chat.ContractMessagesAppend | src/components/contracts/ChatModal.tsx:29 | A new message appears at the end of its own contract's conversation and in no other. |
| Chat.ChatSession.constructor | src/components/contracts/ChatModal.tsx:24-25 | The dialog opens with empty input, no typing indicator and nothing pending. |
| Chat.ChatSession.SetInput | src/components/contracts/ChatModal.tsx:24 | Editing changes only the input. |
| Chat.ChatSession.HandleSend | src/components/contracts/ChatModal.tsx:37-51 | Blank input or no contract changes nothing; otherwise the question is appended for the contract with its own id and time readings, the input cleared, typing shown and the reply queued. |
| Chat.ChatSession.DeliverReply | src/components/contracts/ChatModal.tsx:53-65 | The oldest queued question's reply, computed at the expiry reading and stamped with its own id and time readings, is appended for its contract and the typing indicator is hidden. |
| Chat.ConversationGrows | src/components/contracts/ChatModal.tsx:29 | A question and its answer join the end of their contract's conversation, in that order. |
| Chat.AskAndAnswer | src/components/contracts/ChatModal.tsx:37-65 | Sending a question and letting the timer fire appends the question and then the reply to that question as typed. |
| Dashboard.FilteredContracts | src/pages/Dashboard.tsx:56-63 | An order-preserving sublist holding each row whose file name, model or version includes the lower-cased query as often as the list does, and no other; all rows for an empty query. |
| Dashboard.EmptySearchKeepsAll | src/pages/Dashboard.tsx:57 | With no query every row is shown. |
| Dashboard.SearchIgnoresCase | src/pages/Dashboard.tsx:58-60 | A query and its lower-cased form keep the same rows. |
| Dashboard.SearchNarrows | src/pages/Dashboard.tsx:56-63 | A row a longer query keeps is kept by every query it includes. |
| Dashboard.StatsOf | src/pages/Dashboard.tsx:66-71 | The total is the number of filtered rows, and the three status counters never exceed it. |
| Dashboard.StatsAddUp | src/pages/Dashboard.tsx:66-71 | The three counters plus the rows without a status make up the total. |
| Dashboard.StatsSumToTotal | src/pages/Dashboard.tsx:66-71 | When every row has a status, the three counters sum to the total. |
| Dashboard.TabContracts | src/pages/Dashboard.tsx:255-256 | All lists the filtered rows; Active and Expiring list each filtered row with that status as often as it occurs, in order, and no other. |
| Dashboard.TabsMatchCounters | src/pages/Dashboard.tsx:276-277 | The Active and Expiring tabs list as many contracts as their counters say. |
| Dashboard.UnreadCount | src/pages/Dashboard.tsx:211-213 | The badge count never exceeds the number of alerts. |
| Dashboard.BadgeShownIff | src/pages/Dashboard.tsx:211-213 | The badge is shown exactly when some alert is unread. |
| Dashboard.AllReadNoBadge | src/pages/Dashboard.tsx:211 | When every alert is read the count is zero. |
| Dashboard.DashboardView.constructor | src/pages/Dashboard.tsx:40-41 | The page opens on the All tab with an empty search. |
| Dashboard.DashboardView.Shown | src/pages/Dashboard.tsx:220-222 | The All tab shows a sublist of the rows, in order. |
| Dashboard.DashboardView.SelectTab | src/pages/Dashboard.tsx:204 | Picking a tab changes only the tab. |
| Dashboard.DashboardView.HandleSearch | src/pages/Dashboard.tsx:78-83 | The query is stored; the tab moves from Alerts to All exactly when the query is non-empty, and any other tab stays. |
| Dashboard.SearchLeavesAlerts | src/pages/Dashboard.tsx:80-81 | After a non-empty search the page is never on the Alerts tab. |
| Clustering.BrandSeries | src/components/contracts/ContractClustering.tsx:36 | An order-preserving sublist of the series naming the brand, each as often as in the input, and no other. |
| Clustering.SeriesContracts | src/components/contracts/ContractClustering.tsx:40 | An order-preserving sublist of the contracts of the series, each as often as in the input, and no other. |
| Clustering.GetClusteredData | src/components/contracts/ContractClustering.tsx:21-46 | The nested loops build the record that storing the brands, and in each the brand's series, one after the other gives. |
| Clustering.ClusterKeys | src/components/contracts/ContractClustering.tsx:30-35 | The cluster keys are exactly the brand ids. |
| Clustering.ClusterValue | src/components/contracts/ContractClustering.tsx:30-42 | Each cluster holds a listed brand with that id and the series record built from that brand's series. |
| Clustering.LastBrandWins | src/components/contracts/ContractClustering.tsx:31 | Of several brands with one id, the last one listed owns the cluster. |
| Clustering.SeriesMapKeys | src/components/contracts/ContractClustering.tsx:37-38 | A series record's keys are exactly the ids of the series stored into it. |
| Clustering.SeriesMapValue | src/components/contracts/ContractClustering.tsx:38-41 | Each series entry is a stored series with that id, holding that series' contracts. |
| Clustering.BrandSeriesIds | src/components/contracts/ContractClustering.tsx:36 | The ids of a brand's series are the ids of the series whose brand id is the brand's. |
| Clustering.ClusterSeriesKeys | src/components/contracts/ContractClustering.tsx:36-37 | A brand's series entries are exactly the series whose brand id equals that brand's id. |
| Clustering.ClusterSeriesEntry | src/components/contracts/ContractClustering.tsx:38-41 | A series entry is that brand's series with that id, holding exactly the contracts with that series id, in their original order. |
| Clustering.BrandStatsOf | src/components/contracts/ContractClustering.tsx:50-55 | The total counts the brand's contracts; active, expiring and their sum never exceed it. |
| Clustering.SeriesModels | src/components/contracts/ContractClustering.tsx:67 | No duplicates and no missing or empty model; a model is listed exactly when some contract has it. |
| Clustering.ModelListed | src/components/contracts/ContractClustering.tsx:67 | A model is in the list exactly when it is truthy and some contract carries it. |
| Clustering.SeriesStatsOf | src/components/contracts/ContractClustering.tsx:62-68 | The total counts the series' contracts, the active count never exceeds it, and the models are those of its contracts. |
| Clustering.ModelsInFirstOccurrenceOrder | src/components/contracts/ContractClustering.tsx:67 | The models of the first contracts are a prefix of the models of all, so models appear in first-occurrence order. |
| Auth.MockUsersTable | src/store/authStore.ts:15-43 | The table holds exactly admin, store and sales, with passwords admin123, store123 and sales123, each under its own user name. |
| Auth.Authenticate | src/store/authStore.ts:53-55 | A user is returned iff the name is in the table and the password matches; it is the table's user record without the password. |
| Auth.AuthenticateIff | src/store/authStore.ts:52-59 | Exactly the three listed name and password pairs sign in. |
| Auth.AuthStore.constructor | src/store/authStore.ts:48-50 | Nobody signed in, light theme, and signed in iff there is a user. |
| Auth.AuthStore.Login | src/store/authStore.ts:52-60 | Returns true iff the credentials match; on success the table's user is signed in; on failure the session is unchanged; the theme stays; signed in iff a user. |
| Auth.AuthStore.Logout | src/store/authStore.ts:62-64 | Nobody is signed in afterwards; the theme stays. |
| Auth.AuthStore.ToggleTheme | src/store/authStore.ts:66-75 | The theme flag flips; the session stays. |
| Auth.ToggleThemeTwice | src/store/authStore.ts:66-75 | Toggling twice restores the theme and keeps the session. |
| Auth.BadAttemptKeepsSession | src/store/authStore.ts:59 | A failed sign-in leaves an open session as it was. |

## Left out

- ContractStore.Hundredths: takes `size / 1024 / 1024` as exact. That holds for every size below 2^53 bytes; larger sizes lose precision in floating point, which is not modelled.
- Case mapping covers ASCII letters only. `toLowerCase` on other letters (accented, Greek, and so on) is not modelled.
- `parseInt` hexadecimal prefixes, and `parseFloat` exponents, `Infinity` and IEEE rounding, are not modelled. `parseFloat` gives an exact rational number, and `NaN` is `None`.
- `avgMargin` in `getBrandStats` is left out: it is floating-point averaging and `toFixed(1)`.
- The `persist` middleware and localStorage are not modelled. The `dark` class write on the document element is not modelled either: it is a DOM effect.
- The `window.location.hash` read on the dashboard is not modelled: it is browser state.
- The start-up fetches from the backend are not modelled. Nor are the store members that Dashboard, Comparison and Clustering read but the store does not define (`brands`, `series`, `selectedContracts`, `fetch*`, `compareContracts`). Their logic is modelled as functions over explicit inputs.
- `login` returns a Promise in the code. It is modelled as a synchronous method, because nothing awaits between the lookup and the state change.
- `uploadContract` is asynchronous in the code. It is modelled as one synchronous step, because it has no await.
- The 1.5-second delay and the real clock are not modelled. The reply timer is a queue of pending replies, and each clock reading is a parameter.
- While the assistant is typing, the form disables its input and send button (src/components/contracts/ChatModal.tsx:252-254). That UI gate is not modelled: `HandleSend` accepts a question at any time and queues its reply.
- `Date.now()`, `new Date()`, `Math.random()` and `toLocaleDateString()` are parameters: the `UploadClock`, `Stamp` and `now` readings, the `TermDraw` and `expiryText`.
- Message ids are `msg-` plus the id reading of the clock. Two messages sent in the same millisecond would share an id; the model does not rule this out.
- JavaScript object key order, including prototype keys such as `__proto__` and `constructor` in `mockUsers` or the clusters, is not modelled. Keys are plain map keys.
- The PDF-only gate of the upload dialog and the progress timer in `src/components/contracts/UploadModal.tsx` are not part of this model.
- The rendering and the Navbar search box are not part of this model. The Navbar is modelled only through the query it passes to `handleSearch`.
- Clustering.SeriesModels: returns the `Option<string>` values themselves, of which only present, non-empty ones are kept. It does not unwrap them to strings.
- Dashboard.DashboardView.Shown: states only that the shown rows are an ordered sublist. Which rows they are is stated by `Dashboard.FilteredContracts`, which it returns.
