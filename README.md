# Compliance backend core in Dafny

This project models six parts of a payments-compliance backend and proves properties about them:

- **PAN scanner** (`TransactionMonitor`): finds payment card numbers in text, validates them with the Luhn check, classifies the card network and masks the number.
- **GRC case engine** (`EvidenceEngine`):
  - remediation cases with ID counters and a six-state workflow;
  - an append-only history;
  - SLA hours and round-robin assignment;
  - filtered listings and summary counts;
  - regulatory reports and evidence packages.
- **Ecosystem risk scoring** (`EcosystemTracker`): certificate status, expiring certificates, a five-factor entity risk score, reminders and notification channels, status updates and the daily check.
- **Cross-jurisdiction analyzer** (`CrossJurisdiction`): region lookup, applicable regulations, data localization, EU adequacy, known conflicts, data-flow requirements, guidance, and transaction analysis.
- **Regulatory monitor** (`RegulatoryMonitor`): a digest cache with change detection, filtered regulation listings, impact urgency and update scans.
- **Priority matrix** (`PriorityMatrix`): issues bucketed into a criticality × due-window grid, with summary counts that agree with the grid.

`Common` holds shared helpers: options, ASCII case mapping, filtering and mapping over sequences, counting, insertion-ordered dictionaries as pair lists, and decimal formatting with its parse round trip. `Sorting` is a stable insertion sort by an integer key. Python's `sort` and `sorted` are stable, and `reverse=True` is modelled as a stable sort on the negated key.

The model follows the code's form:

- **Stateful parts are classes.** The case engine is a class whose fields are the counters, the tables and their key order. The regulatory monitor is a class holding the digest cache.
- **Loops are methods.** They are proved against specification functions, which the lemmas are about:
  - the Luhn sum;
  - the pattern-by-pattern scan;
  - matrix population;
  - the counting loops;
  - the conflict de-duplication with its `seen` set.
- **Pure lookups and buckets are functions.**

Environment inputs become explicit:

- **Clocks** are integer parameters:
  - `now` in seconds for the case engine and the impact calculation;
  - `today` as a day number for certificates.
- **md5** is a function parameter of the monitor.
- **Data tables** are parameters, except the constants the code itself defines: regions, localization rules, conflicts, templates and sample issues.

Two points where the code is followed:

- **Sample card number.** A published example says `4532-1234-5678-9012` produces one Visa violation. The code rejects it, because its digits have Luhn sum 68. The model follows the code; see `SampleGroupedRejected`.
- **Risk score range.** The risk score code says the score lies in 0–100. Its jurisdiction factor is always 0, so the model proves the tighter bound of 90.

## Model

| member | source | states |
|---|---|---|
| TransactionMonitor.Digits | backend/agents/transaction_monitor.py:38 | Removing non-digits leaves only digits, never more than the input's length. |
| TransactionMonitor.DigitsAppend | backend/agents/transaction_monitor.py:38 | Digit stripping distributes over concatenation. |
| TransactionMonitor.Reverse | backend/agents/transaction_monitor.py:45 | `digits[::-1]`: same length, position i holds the digit at length-1-i. |
| TransactionMonitor.Doubled | backend/agents/transaction_monitor.py:49-52 | Doubling a digit and subtracting 9 above 9 yields a digit again. |
| TransactionMonitor.LuhnCheck | backend/agents/transaction_monitor.py:35-55 | The loop's verdict is the Luhn predicate: 13 to 19 digits after stripping, and the reversed-position sum with odd positions doubled is 0 mod 10; nothing outside 13..19 digits is accepted. |
| TransactionMonitor.LuhnIgnoresSeparators | backend/agents/transaction_monitor.py:38-41 | Inserting any run of non-digit characters never changes the Luhn verdict. |
| TransactionMonitor.LuhnSumOneChange | backend/agents/transaction_monitor.py:47-53 | Changing one digit changes the running sum by exactly the difference of that position's terms. |
| TransactionMonitor.LuhnTermInjective | backend/agents/transaction_monitor.py:48-52 | Two distinct digits contribute distinct terms at any position. |
| TransactionMonitor.LuhnSumsDiffer | backend/agents/transaction_monitor.py:43-55 | Digit strings differing in one place have different Luhn sums mod 10. |
| TransactionMonitor.LuhnDetectsSingleDigitError | backend/agents/transaction_monitor.py:35-55 | Two equal-length digit strings that differ in one digit are never both accepted. |
| TransactionMonitor.DetectCardType | backend/agents/transaction_monitor.py:57-73 | None exactly below 13 digits; otherwise the first rule that applies, in the order Visa ('4'), Mastercard (51–55 or 2221–2720), American Express (34/37), Discover (6011, 65, 644–649), else Unknown. |
| TransactionMonitor.MaskPan | backend/agents/transaction_monitor.py:75-80 | "****" below 8 digits; otherwise 19 characters: the first four digits, "-XXXX-XXXX-", the last four digits, and no other digit revealed. |
| TransactionMonitor.MaskedDigits | backend/agents/transaction_monitor.py:80 | The masked form's digits are exactly its first four and last four. |
| TransactionMonitor.MatchLength | backend/agents/transaction_monitor.py:14-29 | A match of any of the five shapes spans 13 to 19 characters inside the text and starts with four digits. |
| TransactionMonitor.FindAllFromMatches | backend/agents/transaction_monitor.py:87 | Every string `findall` returns is the text at a position where the shape matches. |
| TransactionMonitor.MastercardLeadIsPrefix | backend/agents/transaction_monitor.py:19 | The Mastercard shape's leading alternatives accept exactly the four-digit leads the classifier calls Mastercard. |
| TransactionMonitor.DiscoverLeadIsPrefix | backend/agents/transaction_monitor.py:25 | The Discover shape's leading alternatives accept exactly the leads the classifier calls Discover. |
| TransactionMonitor.ShapeMatchCardType | backend/agents/transaction_monitor.py:14-25 | A match of the Visa, Mastercard, American Express or Discover shape is classified as that network. |
| TransactionMonitor.FindAllCardType | backend/agents/transaction_monitor.py:86-92 | Every `findall` result of a single-network shape gets that network as its card type. |
| TransactionMonitor.ScanText | backend/agents/transaction_monitor.py:82-105 | The nested loops produce the scan: pattern by pattern, match by match, one violation per match that passes Luhn. |
| TransactionMonitor.ScanTransactionLog | backend/agents/transaction_monitor.py:107-116 | The log scan uses source "transaction_log"; the count equals the length of the list; the status is "critical" exactly when violations exist, else "clean". |
| TransactionMonitor.ViolationsForSound | backend/agents/transaction_monitor.py:89-103 | Each violation of one pattern comes from a Luhn-valid match. |
| TransactionMonitor.ViolationsForComplete | backend/agents/transaction_monitor.py:89-103 | Each Luhn-valid match of one pattern yields its violation. |
| TransactionMonitor.ScanPatternsSound | backend/agents/transaction_monitor.py:86-103 | Every violation of the first k patterns comes from a Luhn-valid match of one of them. |
| TransactionMonitor.ScanPatternsComplete | backend/agents/transaction_monitor.py:86-103 | Every Luhn-valid match of one of the first k patterns is reported. |
| TransactionMonitor.ScanSoundAndComplete | backend/agents/transaction_monitor.py:86-103 | A violation is reported exactly for each match that passes Luhn. Each is a critical "pan_detected" with the given source and a card type that is never None. |
| TransactionMonitor.FindAllDigits | backend/agents/transaction_monitor.py:87 | A match never holds more digits than the text. |
| TransactionMonitor.FewDigitsNoViolations | backend/agents/transaction_monitor.py:86-91 | Text with fewer than 13 digits in all (such as "****-****-****-3456") yields no violation. |
| TransactionMonitor.SampleMastercard | backend/agents/transaction_monitor.py:128 | 5425233430109903 passes Luhn, is a Mastercard and is masked "5425-XXXX-XXXX-9903". |
| TransactionMonitor.SampleMastercardValid | backend/agents/transaction_monitor.py:128 | 5425233430109903 passes the Luhn check. |
| TransactionMonitor.SampleMastercardType | backend/agents/transaction_monitor.py:128 | 5425233430109903 is classified as Mastercard. |
| TransactionMonitor.SampleMastercardMask | backend/agents/transaction_monitor.py:128 | 5425233430109903 is masked as "5425-XXXX-XXXX-9903". |
| TransactionMonitor.DigitsOfGroups | backend/agents/transaction_monitor.py:28 | Four digit groups joined by a separator strip to the groups run together. |
| TransactionMonitor.GroupsInvalid | backend/agents/transaction_monitor.py:28 | Grouping digits with separators cannot make an invalid number valid. |
| TransactionMonitor.SampleGroupedLuhnSum | backend/agents/transaction_monitor.py:126 | The digits 4532123456789012 have Luhn sum 68. |
| TransactionMonitor.SampleGroupedRejected | backend/agents/transaction_monitor.py:126 | The log's 4532-1234-5678-9012 fails the Luhn check, so it yields no violation. |
| EvidenceEngine.Names | backend/agents/evidence_engine.py:385-389 | The allowed targets listed in an error are the status names in table order. |
| EvidenceEngine.Lookup | backend/agents/evidence_engine.py:385 | A requested status is found exactly when its name is among the current status's allowed targets. |
| EvidenceEngine.TransitionTableShape | backend/agents/evidence_engine.py:376-383 | No status moves to itself; "completed" is entered only from "pending_review" and "reopened" only from "completed"; "open" goes only to "investigating". |
| EvidenceEngine.PathToCompletion | backend/agents/evidence_engine.py:376-383 | From every status a sequence of allowed moves reaches "completed". |
| EvidenceEngine.NormalizePriority | backend/agents/evidence_engine.py:297-299 | The lower-cased priority when it is one of the four, else "medium". |
| EvidenceEngine.NormalizeIgnoresCase | backend/agents/evidence_engine.py:297 | Normalising ignores letter case. |
| EvidenceEngine.NormalizeName | backend/agents/evidence_engine.py:297-299 | Each priority's own name normalises to that priority. |
| EvidenceEngine.SlaOrdered | backend/agents/evidence_engine.py:59-64 | The SLA hours 4 < 24 < 72 < 168 strictly decrease with urgency. |
| EvidenceEngine.AutoAssignee | backend/agents/evidence_engine.py:306-309 | An automatic assignee is always one of the three analysts. |
| EvidenceEngine.RoundRobinCoversAnalysts | backend/agents/evidence_engine.py:308-309 | Three consecutive counter values go to three different analysts, and the assignment repeats every three cases. |
| EvidenceEngine.ReplayStep | backend/agents/evidence_engine.py:396-407 | Appending a status-change entry for an allowed move makes the history lead to the new status. |
| EvidenceEngine.ReplayShape | backend/agents/evidence_engine.py:329-336 | A consistent history begins with its creation entry, and every later entry is a status change. |
| EvidenceEngine.IdNumber | backend/agents/evidence_engine.py:293 | A zero-padded ID carries its prefix, and its number can be read back. |
| EvidenceEngine.CaseIdsDistinct | backend/agents/evidence_engine.py:293-294 | Different counter values give different case IDs. |
| EvidenceEngine.NewCase | backend/agents/evidence_engine.py:311-341 | A new case carries the ID of its counter value, is "open", and has a history that leads to "open". |
| EvidenceEngine.NewCaseFields | backend/agents/evidence_engine.py:297-341 | A new case has the normalised priority, that priority's SLA hours, and a due time that many hours from creation. Its assignee is the one given, else the round-robin analyst of the already incremented counter. It has four pending action items and a single "created" history entry. |
| EvidenceEngine.Recorded | backend/agents/evidence_engine.py:403-406 | Notes and evidence enter the history exactly when non-empty. |
| EvidenceEngine.Advance | backend/agents/evidence_engine.py:392-418 | An allowed move sets the new status and `updated_at` to now, and appends exactly one history entry with the previous and new status. The ID, title, description, priority, assignee, due date, SLA hours, linked IDs and action items stay as they were. Completion records the resolution time and whether it was within the SLA; any other move keeps the earlier ones. |
| EvidenceEngine.StatusNames | backend/agents/evidence_engine.py:519-522 | One status name per case, in order. |
| EvidenceEngine.PriorityNames | backend/agents/evidence_engine.py:519-523 | One priority name per case, in order. |
| EvidenceEngine.CountViolations | backend/agents/evidence_engine.py:115-117 | There are as many violations as alerts. The critical count is the number of alerts with severity "critical", and the resolved count the number with status "resolved"; neither exceeds the total. |
| EvidenceEngine.Quarter | backend/agents/evidence_engine.py:193 | "Q1" to "Q4": quarter k holds exactly the months 3k−2 to 3k, so Q1 is months 1–3 and Q4 months 10–12. |
| EvidenceEngine.MakeReport | backend/agents/evidence_engine.py:193-247 | The report ID comes from the quarter and framework. Compliant is 92% and exceptions 5% of the template's requirement count, rounded down, and not-applicable is the rest. The title adds the quarter and "2025" to the template's title. The violation counts are those of the alerts citing the framework, open plus resolved equals the total, and the page count is 24 plus two per violation. The region defaults to "Global". |
| EvidenceEngine.PackageIdsDistinct | backend/agents/evidence_engine.py:93-94 | Different evidence counter values give different package IDs. |
| EvidenceEngine.ScopeSelection | backend/agents/evidence_engine.py:97-112 | "pci" keeps the alerts citing PCI and every entity. "gdpr" keeps the alerts citing GDPR and exactly the EU, UK, DE and FR entities. "entity" with an ID keeps exactly that entity's alerts and entity. Each kept list is the input filtered in order, so nothing is added. Any other scope, and "entity" without an ID, is the full audit. |
| EvidenceEngine.Values | backend/agents/evidence_engine.py:442 | `list(d.values())`: the stored values in key order. |
| EvidenceEngine.KeyOrderInsert | backend/agents/evidence_engine.py:344 | Dictionary assignment keeps an existing key's position and appends a new key. |
| EvidenceEngine.CaseTableInsert | backend/agents/evidence_engine.py:293-294 | The current counter's ID is not taken, and filing the case under it keeps the table consistent. |
| EvidenceEngine.CaseTableUpdate | backend/agents/evidence_engine.py:392-407 | Replacing a case by its advanced version keeps the table consistent. |
| EvidenceEngine.PackageTableInsert | backend/agents/evidence_engine.py:93-94 | The current evidence counter's ID is fresh, and filing the package keeps the table consistent. |
| EvidenceEngine.ReportTableInsert | backend/agents/evidence_engine.py:250 | Storing a report under its ID keeps the report table consistent. |
| EvidenceEngine.TablesFileCase | backend/agents/evidence_engine.py:344 | Filing a new case under the case counter keeps all three tables consistent. |
| EvidenceEngine.Selected | backend/agents/evidence_engine.py:442-449 | A case is kept exactly when it passes each filter that is given. |
| EvidenceEngine.SelectCases | backend/agents/evidence_engine.py:442-451 | Exactly the cases passing every given filter, each as often as it is stored, newest first. Cases created at the same moment stay in stored order. |
| EvidenceEngine.SortItems | backend/agents/evidence_engine.py:486 | A permutation sorted by "created_at" descending, and stable: items with equal keys keep their input order. Reports lack that key, so every package precedes every report and the reports keep their dict order. |
| EvidenceEngine.Summarize | backend/agents/evidence_engine.py:501-523 | The counting loops give the number of overdue cases and the per-status and per-priority counts in first-occurrence order. |
| EvidenceEngine.SummaryConsistent | backend/agents/evidence_engine.py:517-526 | The per-status counts and the per-priority counts each add up to the number of cases. |
| EvidenceEngine.Engine.constructor | backend/agents/evidence_engine.py:23-32 | All counters start at 1, all tables start empty, and the invariant holds. |
| EvidenceEngine.Engine.CaseList | backend/agents/evidence_engine.py:442 | The stored cases in insertion order. |
| EvidenceEngine.Engine.ReportList | backend/agents/evidence_engine.py:475 | One entry per stored report. |
| EvidenceEngine.Engine.PackageList | backend/agents/evidence_engine.py:481 | One entry per stored package. |
| EvidenceEngine.Engine.CreateGrcCase | backend/agents/evidence_engine.py:270-346 | The case is filed under the current counter's ID, which was free; the counter grows by exactly one; no other field changes. |
| EvidenceEngine.Engine.UpdateRemediationStatus | backend/agents/evidence_engine.py:348-429 | An unknown case is an error and nothing changes. A move outside the table is an error listing the allowed targets, and nothing changes. An allowed move advances that case alone. The result reports the resolution time and SLA verdict for a completion, and none for any other move. |
| EvidenceEngine.Engine.GetGrcCase | backend/agents/evidence_engine.py:431-433 | The stored case exactly when the ID is stored. |
| EvidenceEngine.Engine.ListGrcCases | backend/agents/evidence_engine.py:435-451 | Exactly the stored cases passing every given filter, each once, sorted by creation time descending. Cases created at the same moment stay in stored order. |
| EvidenceEngine.Engine.GetRemediationSummary | backend/agents/evidence_engine.py:488-531 | The total, the per-status and per-priority counts, and the overdue count (not completed or reopened, past due) over the stored cases. |
| EvidenceEngine.Engine.GetReport | backend/agents/evidence_engine.py:453-455 | A report under that ID first, then a package; nothing exactly when neither exists. |
| EvidenceEngine.Engine.ListReports | backend/agents/evidence_engine.py:457-486 | A permutation of the selected reports and packages, sorted by "created_at" descending with reports last. The sort is stable, so the reports and equal-time packages keep their dict order. An unknown report type lists nothing. |
| EvidenceEngine.Engine.GenerateRegulatoryReport | backend/agents/evidence_engine.py:160-252 | An unknown framework is an error and the reports stay unchanged. Otherwise the report is stored under its ID, replacing in place one already stored there. |
| EvidenceEngine.Engine.CompileEvidencePackage | backend/agents/evidence_engine.py:66-158 | The package is filed under the current evidence counter's ID, which was free, and that counter grows by one. |
| EvidenceEngine.MakePackage | backend/agents/evidence_engine.py:93-153 | The package's violation counts, entities covered and label are those of its scope's selection; its size is 2456789 bytes plus 1000 per violation. |
| EvidenceEngine.ReportItems | backend/agents/evidence_engine.py:478 | Each report becomes one listing item, in order. |
| EvidenceEngine.PackageItems | backend/agents/evidence_engine.py:484 | Each package becomes one listing item, in order. |
| EcosystemTracker.StatusFor | backend/agents/ecosystem_tracker.py:99-105 | "expired" exactly below 0 days, "expiring" exactly for 0–30, "valid" exactly above 30. |
| EcosystemTracker.GetEntityCertifications | backend/agents/ecosystem_tracker.py:82-119 | Nothing exactly for an unknown entity. Otherwise every certificate, in order, with its days remaining and computed status, plus the entity's contact fields. |
| EcosystemTracker.EntityType | backend/agents/ecosystem_tracker.py:396-404 | Each entity type corresponds to exactly one ID prefix (BNK, MID, VND), and "unknown" to none. |
| EcosystemTracker.FirstPci | backend/agents/ecosystem_tracker.py:338-341 | The first PCI-DSS certificate, where the loop breaks; none exactly when there is no PCI-DSS certificate. |
| EcosystemTracker.FindPci | backend/agents/ecosystem_tracker.py:371-384 | The scanning loop stops at the first PCI-DSS certificate. |
| EcosystemTracker.ExpiryRiskMonotone | backend/agents/ecosystem_tracker.py:137-144 | Fewer days remaining never gives a lower expiry risk. |
| EcosystemTracker.CertEntriesMembers | backend/agents/ecosystem_tracker.py:130-156 | An entity contributes an entry exactly for each of its certificates with 0 ≤ days ≤ horizon. |
| EcosystemTracker.SomeRowListsSnoc | backend/agents/ecosystem_tracker.py:129 | An entry listed by a longer table comes from the shorter one or from the added row. |
| EcosystemTracker.CandidatesMembers | backend/agents/ecosystem_tracker.py:129-156 | Before sorting, an entry is listed exactly when some known entity's certificate lies within the horizon. |
| EcosystemTracker.CandidatesWithinHorizon | backend/agents/ecosystem_tracker.py:135-144 | Every entry lies within 0..horizon days and carries the risk level of its days remaining. |
| EcosystemTracker.CheckExpiring | backend/agents/ecosystem_tracker.py:121-160 | A permutation of the qualifying entries sorted ascending by days remaining, stable among equal days, each within the horizon with its risk level. |
| EcosystemTracker.ThirtyDayHorizonNeverLow | backend/agents/ecosystem_tracker.py:135-144 | With the default horizon of 30 days no entry is rated low. |
| EcosystemTracker.MinDays | backend/agents/ecosystem_tracker.py:182-186 | The least days remaining over the certificates, attained by one of them; none (infinity) exactly without certificates. |
| EcosystemTracker.EarliestExpiry | backend/agents/ecosystem_tracker.py:182-186 | The minimum loop computes that least days remaining. |
| EcosystemTracker.ScoreLevelMonotone | backend/agents/ecosystem_tracker.py:251-258 | A higher score never gives a lower risk level. |
| EcosystemTracker.CertificationConcern | backend/agents/ecosystem_tracker.py:188-200 | A concern is raised exactly when the certification factor is 15 or more: expired, or 60 days or fewer left. |
| EcosystemTracker.ViolationConcern | backend/agents/ecosystem_tracker.py:203-212 | A concern is raised exactly from three violations on. |
| EcosystemTracker.Concerns | backend/agents/ecosystem_tracker.py:188-236 | One concern per raised step, with the anomaly concern present whenever anomalies are reported. |
| EcosystemTracker.FactorsBounded | backend/agents/ecosystem_tracker.py:181-248 | Each factor stays within its weight and the sum is at most 90. |
| EcosystemTracker.SponsorFactor | backend/agents/ecosystem_tracker.py:224-245 | The sponsoring bank's first PCI-DSS certificate decides the relationship factor; only an expired one raises a concern. |
| EcosystemTracker.CalculateEntityRisk | backend/agents/ecosystem_tracker.py:162-266 | An unknown entity scores 0 at level "unknown". Otherwise the score is the sum of the factors, each within its weight and at most 90 in total, and the level is that of the score. The concerns are those raised, in step order (certification, violations, anomalies, sponsoring bank), or "No immediate concerns" alone when none is raised. |
| EcosystemTracker.Channels | backend/agents/ecosystem_tracker.py:406-413 | Email and in-app always come first; sms is added exactly for urgent or critical, phone exactly for critical. |
| EcosystemTracker.ReminderChannelsMonotone | backend/agents/ecosystem_tracker.py:278-285 | The nearer the expiry, the more channels a reminder uses. |
| EcosystemTracker.ReminderChannelsByDays | backend/agents/ecosystem_tracker.py:278-285 | Up to 14 days the phone is used; from 15 to 30 days sms without the phone; above 30 days only email and in-app. |
| EcosystemTracker.GenerateReminder | backend/agents/ecosystem_tracker.py:268-325 | An error exactly for an unknown entity. Otherwise the urgency of the days remaining, its channels, the subject tagged with the upper-cased urgency, and the contact email or the fallback address. |
| EcosystemTracker.UpdateComplianceStatus | backend/agents/ecosystem_tracker.py:327-354 | An unknown entity and a status outside the six accepted ones are errors. Otherwise the previous status (first PCI-DSS certificate, else "unknown") and the new one are reported, and nothing is stored. |
| EcosystemTracker.ComputedStatusesAccepted | backend/agents/ecosystem_tracker.py:344 | Every status the tracker computes is accepted as an update. |
| EcosystemTracker.ExecuteDailyCheck | backend/agents/ecosystem_tracker.py:356-394 | Every entity is checked once. Non-compliant, at-risk and notification counts come from each entity's first PCI-DSS certificate. Non-compliant plus at-risk never exceeds the entities checked. |
| EcosystemTracker.DailyCheckAgreesWithStatus | backend/agents/ecosystem_tracker.py:371-380 | An entity counts as non-compliant exactly when its first PCI-DSS certificate shows as expired, and as at risk exactly when it shows as expiring. |
| CrossJurisdiction.RegionRegsKeys | backend/agents/cross_jurisdiction.py:14-26 | Every region except "OTHER" has a regulations entry. |
| CrossJurisdiction.KeyNamed | backend/agents/cross_jurisdiction.py:274 | A jurisdiction string names a regulations key exactly when it is that key's spelling. |
| CrossJurisdiction.KeyNamedName | backend/agents/cross_jurisdiction.py:274 | A key's own name finds that key. |
| CrossJurisdiction.GetRegion | backend/agents/cross_jurisdiction.py:90-92 | "OTHER" exactly when the upper-cased code is not in the table; never the global key. |
| CrossJurisdiction.GetRegionIgnoresCase | backend/agents/cross_jurisdiction.py:92 | Codes equal up to case have the same region. |
| CrossJurisdiction.ApplicableRegionsMembers | backend/agents/cross_jurisdiction.py:98-101 | A region is collected exactly when it is the region of a given country and not "OTHER". |
| CrossJurisdiction.ApplicableRegionsSnoc | backend/agents/cross_jurisdiction.py:98-101 | One more country adds its region when that region has regulations. |
| CrossJurisdiction.ApplicableRegionsLocal | backend/agents/cross_jurisdiction.py:29-37 | No country maps to the global key or to "OTHER" among the collected regions. |
| CrossJurisdiction.AddCountryRegion | backend/agents/cross_jurisdiction.py:98-101 | One loop pass keeps the keys in first-occurrence order, each with its regulations. |
| CrossJurisdiction.GetApplicableRegulations | backend/agents/cross_jurisdiction.py:94-106 | The keys are the countries' regions in first-occurrence order, then GLOBAL; each maps to its table regulations. |
| CrossJurisdiction.KeysShape | backend/agents/cross_jurisdiction.py:96-104 | Distinct regions followed by GLOBAL hold no repeated key and end in GLOBAL. |
| CrossJurisdiction.ApplicableKeys | backend/agents/cross_jurisdiction.py:94-106 | GLOBAL is always present and last, no key repeats, and any other key is the region of a given country. |
| CrossJurisdiction.Localized | backend/agents/cross_jurisdiction.py:108-123 | One requirement per country with a localization rule, in input order. |
| CrossJurisdiction.CheckDataLocalization | backend/agents/cross_jurisdiction.py:108-123 | The loop yields exactly those requirements. |
| CrossJurisdiction.LocalizedMembers | backend/agents/cross_jurisdiction.py:112-121 | A country is reported exactly when it is given and its upper-cased code has a rule, and it is reported with that rule. |
| CrossJurisdiction.CheckEuAdequacy | backend/agents/cross_jurisdiction.py:125-134 | Adequate exactly when the upper-cased destination has a decision or is DE, FR, IT, ES or NL; "None" exactly when adequate. |
| CrossJurisdiction.FirstWord | backend/agents/cross_jurisdiction.py:275 | `reg.split()[0]` is a prefix of the regulation. |
| CrossJurisdiction.CopiesShape | backend/agents/cross_jurisdiction.py:272-278 | The first loop appends only copies of the conflict, and appends some exactly when a regulation of it matches. |
| CrossJurisdiction.GatheredFrom | backend/agents/cross_jurisdiction.py:270-278 | Everything gathered is a known conflict. |
| CrossJurisdiction.UniqueFrom | backend/agents/cross_jurisdiction.py:281-286 | De-duplication only keeps conflicts it was given. |
| CrossJurisdiction.UniqueAppendCopies | backend/agents/cross_jurisdiction.py:281-286 | Copies of a conflict with a new ID leave exactly one copy after de-duplication. |
| CrossJurisdiction.FreshId | backend/agents/cross_jurisdiction.py:281-286 | With distinct IDs, a conflict's ID has not been seen before it. |
| CrossJurisdiction.FilterLast | backend/agents/cross_jurisdiction.py:270-278 | Selecting over one more conflict adds it exactly when it applies. |
| CrossJurisdiction.UniqueGatheredIsFilter | backend/agents/cross_jurisdiction.py:268-288 | Gathering with repeats and then removing them gives exactly the applicable conflicts in table order. |
| CrossJurisdiction.KnownConflictIdsDistinct | backend/agents/cross_jurisdiction.py:51-84 | The four known conflicts have distinct IDs. |
| CrossJurisdiction.FilterDistinctIds | backend/agents/cross_jurisdiction.py:281-286 | Any selection of conflicts with distinct IDs keeps them distinct. |
| CrossJurisdiction.ConflictsUnique | backend/agents/cross_jurisdiction.py:262-288 | The conflicts found never repeat an ID and all come from the known table. |
| CrossJurisdiction.AnyJurisdictionMatches | backend/agents/cross_jurisdiction.py:273-278 | The innermost loop finds whether some jurisdiction matches the regulation. |
| CrossJurisdiction.GatheredSnoc | backend/agents/cross_jurisdiction.py:270-278 | One more conflict appends its copies. |
| CrossJurisdiction.CopiesSnoc | backend/agents/cross_jurisdiction.py:272-278 | One more regulation appends one copy when it matches. |
| CrossJurisdiction.UniqueSnoc | backend/agents/cross_jurisdiction.py:283-286 | One more conflict is kept exactly when its ID has not been seen. |
| CrossJurisdiction.GatherApplicable | backend/agents/cross_jurisdiction.py:268-278 | The first loop appends each conflict once per regulation some jurisdiction matches. |
| CrossJurisdiction.RemoveRepeatedIds | backend/agents/cross_jurisdiction.py:280-286 | The second loop, with its set of seen IDs, keeps the first conflict with each ID. |
| CrossJurisdiction.GetJurisdictionConflicts | backend/agents/cross_jurisdiction.py:262-288 | Each known conflict at most once, in table order, exactly when one of its regulations matches a given jurisdiction. |
| CrossJurisdiction.FlowTextInitials | backend/agents/cross_jurisdiction.py:232-246 | The fixed requirement texts differ in their first characters. |
| CrossJurisdiction.StrictLocalizationLines | backend/agents/cross_jurisdiction.py:237-242 | One requirement per strict rule, and one warning per strict rule of the origin itself. |
| CrossJurisdiction.CheckDataFlowCompliance | backend/agents/cross_jurisdiction.py:215-260 | The flow is always allowed. The requirements list SCCs, then the strict localization rules, then the RBI rule. The regions and regulations are those of origin and destination. |
| CrossJurisdiction.StrictLineDistinct | backend/agents/cross_jurisdiction.py:240 | No localization line spells the RBI or the SCC requirement. |
| CrossJurisdiction.StrictLinesDistinct | backend/agents/cross_jurisdiction.py:237-242 | None of a flow's localization lines is the RBI or the SCC requirement. |
| CrossJurisdiction.RbiRequirementIff | backend/agents/cross_jurisdiction.py:245-246 | The RBI requirement is listed exactly when origin or destination is "IN" as spelled. |
| CrossJurisdiction.SccRequirementIff | backend/agents/cross_jurisdiction.py:229-233 | SCCs are required exactly for EU data sent outside the EU to a destination without adequacy. |
| CrossJurisdiction.StrictRuleRequired | backend/agents/cross_jurisdiction.py:237-240 | Every strict rule of the origin or the destination appears among the requirements. |
| CrossJurisdiction.GuidanceTextInitials | backend/agents/cross_jurisdiction.py:299-316 | The fixed key-requirement lines differ in their first characters. |
| CrossJurisdiction.TopFive | backend/agents/cross_jurisdiction.py:324-325 | `xs[:5]`: a prefix of at most five items, all of them when there are five or fewer. |
| CrossJurisdiction.BuildKeyRequirements | backend/agents/cross_jurisdiction.py:294-316 | The key requirements before the cut: by region (EU, US, IN, SG), then the PCI-DSS and retention lines. |
| CrossJurisdiction.BuildActionItems | backend/agents/cross_jurisdiction.py:295-320 | The action items before the cut: EU and IN items, then one review per conflict. |
| CrossJurisdiction.ReviewItems | backend/agents/cross_jurisdiction.py:319-320 | One review item per conflict, in order. |
| CrossJurisdiction.GenerateGuidance | backend/agents/cross_jurisdiction.py:290-332 | The summary counts jurisdictions and frameworks; key requirements and action items are the first five of their lists, so at most five each. |
| CrossJurisdiction.PciGuidanceKept | backend/agents/cross_jurisdiction.py:298-325 | The PCI-DSS line is always listed unless the EU, the US and India or Singapore all apply, which fills the five places first. |
| CrossJurisdiction.FirstConflictsReviewed | backend/agents/cross_jurisdiction.py:298-325 | The first three conflicts are always among the action items. |
| CrossJurisdiction.EuTransferFindings | backend/agents/cross_jurisdiction.py:180-187 | One SCC condition and one adequacy risk per country outside the EU and UK without adequacy, in order. |
| CrossJurisdiction.LocalizationFindings | backend/agents/cross_jurisdiction.py:190-194 | A condition per localization requirement, and a risk per strict one. |
| CrossJurisdiction.ConflictRisks | backend/agents/cross_jurisdiction.py:197-199 | The descriptions of the high and medium conflicts, in order. |
| CrossJurisdiction.AnalyzeTransaction | backend/agents/cross_jurisdiction.py:136-213 | The status is always "COMPLIANT". The applicable regulations are keyed by exactly the regions, each with its table regulations. The localization, conflicts, conditions, risks and guidance are those of the transaction's countries, and the guidance summary counts the countries and the regions. The ID is the one given, else a generated one. |
| CrossJurisdiction.ConditionsAndRisks | backend/agents/cross_jurisdiction.py:174-199 | The conditions and risks are the EU transfer findings (when the EU is among the regions), the localization findings and the severe conflicts. |
| CrossJurisdiction.EuInvolvedIff | backend/agents/cross_jurisdiction.py:179 | The EU is among the regions exactly when some country lies in the EU. |
| CrossJurisdiction.StrictLocalizationFlagged | backend/agents/cross_jurisdiction.py:190-194 | Every strict localization rule of a transaction country yields both a condition and a risk. |
| CrossJurisdiction.TransferSafeguardsListed | backend/agents/cross_jurisdiction.py:179-187 | With the EU involved, each country outside the EU and UK without adequacy gets an SCC condition and an adequacy risk. |
| CrossJurisdiction.NoSafeguardsInsideEu | backend/agents/cross_jurisdiction.py:181-187 | A transaction entirely inside the EU needs no transfer safeguards. |
| CrossJurisdiction.EuNeedsNoSafeguard | backend/agents/cross_jurisdiction.py:182-185 | An EU country never needs a transfer safeguard. |
| RegulatoryMonitor.InitialHashes | backend/agents/regulatory_monitor.py:117-121 | The initial cache has an entry exactly for each regulation ID. |
| RegulatoryMonitor.InitialHashesOfDistinct | backend/agents/regulatory_monitor.py:117-121 | With distinct IDs, each ID holds the digest of its own title, summary and effective date. |
| RegulatoryMonitor.Detect | backend/agents/regulatory_monitor.py:148-155 | An unknown ID is stored and reported as changed. A known ID reports whether the digest differs and leaves the cache as it was. |
| RegulatoryMonitor.DetectTwice | backend/agents/regulatory_monitor.py:150-155 | A second call with the same digest reports no change. |
| RegulatoryMonitor.FilterBoth | backend/agents/regulatory_monitor.py:161-164 | Filtering by region and then by status equals filtering by both at once. |
| RegulatoryMonitor.FirstIndexWithId | backend/agents/regulatory_monitor.py:170 | The position of the first regulation with the ID, or the length. |
| RegulatoryMonitor.FirstWithId | backend/agents/regulatory_monitor.py:170 | The first regulation with the ID; none exactly when none has it. |
| RegulatoryMonitor.FirstSource | backend/agents/regulatory_monitor.py:132 | A source with the ID; none exactly when none has it. |
| RegulatoryMonitor.UrgencyFor | backend/agents/regulatory_monitor.py:207-214 | Critical exactly under 30 days, high for 30–89, medium for 90–179, low from 180. |
| RegulatoryMonitor.UrgencyMonotone | backend/agents/regulatory_monitor.py:207-214 | A nearer effective date is never less urgent. |
| RegulatoryMonitor.ScannedSnoc | backend/agents/regulatory_monitor.py:240-243 | One more source adds its regulations to those visited. |
| RegulatoryMonitor.StatusPartition | backend/agents/regulatory_monitor.py:245-262 | Each visited regulation is new, updated or unchanged, exactly one of them. |
| RegulatoryMonitor.ScanCountsAgree | backend/agents/regulatory_monitor.py:240-262 | New + updated + unchanged equals the number visited, and the alerts number new + updated. |
| RegulatoryMonitor.Monitor.constructor | backend/agents/regulatory_monitor.py:112-121 | The cache starts as the initial digests of the regulations. |
| RegulatoryMonitor.Monitor.DetectChanges | backend/agents/regulatory_monitor.py:148-155 | The result and the new cache are those of one detection on the old cache. |
| RegulatoryMonitor.Monitor.GetAllRegulations | backend/agents/regulatory_monitor.py:157-166 | The regulations in order whose region and status match the given filters, ignoring case. |
| RegulatoryMonitor.Monitor.GetRegulation | backend/agents/regulatory_monitor.py:168-170 | A tracked regulation with the ID; none exactly when none has it. |
| RegulatoryMonitor.Monitor.FetchSource | backend/agents/regulatory_monitor.py:127-146 | An unknown source is an error naming it. Otherwise the source's name, and the number of regulations found is the count from that source. |
| RegulatoryMonitor.Monitor.CalculateImpact | backend/agents/regulatory_monitor.py:191-224 | An unknown regulation is an error with 0 affected. Otherwise it reports the affected entities and their count, plus the days until effective and that number's urgency. |
| RegulatoryMonitor.Monitor.ScanSource | backend/agents/regulatory_monitor.py:244-262 | One source's regulations counted by status, with an alert for each new or updated one. |
| RegulatoryMonitor.Monitor.CheckForUpdates | backend/agents/regulatory_monitor.py:226-264 | Every source is checked. New + updated + unchanged equals the regulations of the monitored sources, and one alert is raised per new or updated regulation. |
| PriorityMatrix.EmptyMatrixComplete | backend/priority_matrix.py:34-39 | The initial matrix has all sixteen cells, each empty. |
| PriorityMatrix.Populate | backend/priority_matrix.py:41-45 | Each cell holds exactly the issues of its criticality and due window, in input order. |
| PriorityMatrix.OneCellEach | backend/priority_matrix.py:42-45 | An issue lies in a cell exactly when the cell is its own criticality and due window. |
| PriorityMatrix.CellCons | backend/priority_matrix.py:42-45 | One more issue adds one to its own cell only. |
| PriorityMatrix.RowCons | backend/priority_matrix.py:42-45 | One more issue adds one to its own row only. |
| PriorityMatrix.GridSizeIsTotal | backend/priority_matrix.py:42-49 | The sixteen cell sizes add up to the number of issues. |
| PriorityMatrix.OverdueIsColumn | backend/priority_matrix.py:50 | The overdue count is the size of the four overdue cells. |
| PriorityMatrix.AttentionIsCorner | backend/priority_matrix.py:52 | The issues needing attention fill the critical/high × overdue/this-week cells. |
| PriorityMatrix.BuildPriorityMatrix | backend/priority_matrix.py:33-53 | The summary agrees with the grid. The total is the grid size, overdue is its column, critical-overdue is its cell, and needs-attention is its corner, at most the total. |
| PriorityMatrix.GetPriorityMatrix | backend/priority_matrix.py:5-59 | On the built-in issues: 9 in all, 1 overdue, 1 critical and overdue, 3 needing attention. |
| PriorityMatrix.SampleSummary | backend/priority_matrix.py:48-53 | The summary of the built-in issues is (9, 1, 1, 3). |
| PriorityMatrix.SampleOverdue | backend/priority_matrix.py:50 | One built-in issue is overdue. |
| PriorityMatrix.SampleAttention | backend/priority_matrix.py:52 | Three built-in issues need attention. |
| PriorityMatrix.SampleCriticalOverdue | backend/priority_matrix.py:51 | One built-in issue is critical and overdue. |

## Left out

- Clocks (`datetime.now`, `utcnow`, `date.today`, ISO timestamps) are integer parameters throughout. The timestamp fields themselves are not modelled: `detected_at`, `scanned_at`, `analyzed_at`, `sent_at`, `changed_at`, `next_run` and `fetched_at`. Nor are the clock-derived IDs for notifications and audit logs.
- Hashing is foreign code. md5 in the regulatory monitor is a function parameter. The sha256 checksum of evidence packages and the md5 `content_hash` of `fetch_source` are not modelled.
- Floating-point is not modelled:
  - `compliance_score` and `avg_resolution_hours` are left out.
  - `int(total * 0.92)` and `int(total * 0.05)` are modelled as exact integer division by 100.
  - `total_seconds() / 3600 <= sla_hours` is modelled as elapsed seconds ≤ 3600 × sla_hours.
  - `resolution_time` is elapsed seconds, not a `str(timedelta)`.
- Text generation is not modelled: the executive summary of reports, the reminder body, and the guidance documentation list beyond its fixed items.
- `export_data`, `get_sources`, `parse_regulation`, `get_all_known_conflicts`, `get_jurisdiction_summary` and the demo functions are outside the modelled core.
- Web routes, the chat integration, the frontend and the mock data tables are outside the model. Entity, alert, source and regulation tables are parameters rather than copies of the mock data.
- The model is ASCII only, while Python's text handling is Unicode. Python's `\d`, `\D` and `\s` also match non-ASCII characters. Its `\b` uses the Unicode `\w`, so a letter such as "é" before a card number removes the word boundary that the model's ASCII word test still sees. `str.upper()` and `str.lower()` map non-ASCII letters too: `"ın".upper()` is "IN", which the model's `Upper` leaves unmapped (country codes in `get_region`, `check_data_localization` and `check_eu_adequacy`, and the case-insensitive filters).
- TransactionMonitor.ScanText: `scan_text`'s default `source="unknown"` is not modelled; callers always pass the source label.
- The regular expressions are modelled as fixed digit shapes with word-boundary checks, not by a regex engine.
- The order of the country set in `analyze_transaction` is unspecified. The model takes any duplicate-free listing of that set, and its lemmas hold for every order.
- TransactionMonitor.FewDigitsNoViolations: states the no-violation case for texts with fewer than 13 digits in all. It does not cover every text lacking a 13-digit run or a four-by-four group.
- TransactionMonitor.SampleMastercard: the full demo log (two Mastercard violations, both masked "5425-XXXX-XXXX-9903") is not proved as one statement. Its parts are separate lemmas:
  - the Mastercard number passes, is classified and masked;
  - `FindAllCardType` and `ScanSoundAndComplete` tie matches to violations;
  - the grouped number is rejected;
  - those without enough digits yield nothing.
- CrossJurisdiction.FirstWord: models `reg.split()[0]` for strings without leading whitespace, which covers every regulation in the tables. The `IndexError` on a blank string is not modelled.
- EcosystemTracker.CalculateEntityRisk: when the sponsoring bank is on file but holds no PCI-DSS certificate, the code never sets the relationship factor. The model leaves that factor absent and does not add a key.
- EvidenceEngine.Engine.GetReport: Python's `or` would skip an empty report dict. Stored reports are never empty, so the model always returns the report.
- Statuses and priorities of cases are datatypes with their source names. A status or priority filter compares the given string with those names.
- `check_for_updates` calls `fetch_source` and ignores the result; the model does not call it.
- `__init__` of the evidence engine also builds the report templates and the SLA table. They are constants here.
