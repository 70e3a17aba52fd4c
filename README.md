# Missing-children alerts: a verified model of the notification core

This project models the notification and subscription core of a Django
registry of missing-child cases, and proves properties of that model:

- how a case becomes an SMS text (the abduction warning, the 1600-character
  cap) and how the SMS gateway sends it, one number or subscriber at a time;
- the background job that alerts e-mail and SMS subscribers about one case,
  and the daily digest job;
- the public views that select cases (home page, case list, search, case
  page), accept a report, mail the subscribers, and take a subscription
  from sign-up to a verified address;
- the admin's `save_model`, which numbers new cases and sets their
  reporter;
- the records, their defaults and choice codes, their uniqueness
  constraints, and the validation rules of the forms.

The database is represented by sequences of records in table order. A
queryset filter is `Query.Filter`, and `order_by` is an insertion sort that
is proved sorted and a permutation. The two tables that the views and the
admin write to are classes, `Models.ChildTable` and
`Models.SubscriptionTable`; each has a `Valid()` predicate for its
uniqueness constraint. The Twilio endpoints and the mail transport are
function parameters that answer each request. The clock, the random token,
the request's origin and the e-mail validator are parameters too.

Django's form fields clean every text value with `str.strip()` before they
check its length or store it. `Strings.Strip` removes the characters
Python's `str.isspace` accepts from both ends. The search, report and
subscribe forms apply it before their length limits and before the
duplicate-address test, and they keep the stripped value.

Each send loop in the source is a method with a `while` loop. That method
is proved equal to a specification function that recurses over prefixes of
the list. The properties (order, one result per recipient, "an escaping
exception stops the loop", counts) are lemmas about that function. The
views are functions from the old state to a result that holds the response,
the new rows and the mails. Each state-changing view also exists as a
method on the table class, and its `ensures` ties it to the function.

Where the code departs from what it evidently means to do (isolated
per-recipient failures, one subscription per token, a gateway that turns
every provider failure into a result), the model follows the code:
- the alert job lets a refused alert mail escape, because it sends with
  `fail_silently=False`;
- `verify_email` raises `MultipleObjectsReturned` when two rows share a
  token;
- the gateway catches only `TwilioRestException`, so any other provider
  exception escapes from the send loops and the verification calls, and is
  not turned into a failed result;
- the e-mail location match runs the way a finding below describes.

A child's name can hold a line break, since the form strips only the ends,
and the name then puts one in the alert subject. Django refuses such a
header with `BadHeaderError` while it builds the message, before the
transport runs, so `fail_silently=True` does not catch it. The report view
then raises after the case is saved, and the alert job raises before any
mail.

Modules, one file each:

| file | module | what it holds |
|---|---|---|
| wrappers.dfy | `Wrappers` | `Option` |
| errors.dfy | `Errors` | the exceptions that can escape |
| strings.dfy | `Strings` | ASCII case folding, substring test (`__icontains`), `str(int)`, `{n:04d}`, `str.strip()` |
| clock.dfy | `Clock` | naive `datetime`: validity, order, `strftime`, `str`, `- timedelta(days=1)` |
| query.dfy | `Query` | `.filter`, chained filters, `order_by('-key')`, `[:n]` |
| models.dfy | `Models` | records, enums, defaults, `__str__`, the two writable tables |
| forms.dfy | `Forms` | `SearchForm` cleaning, report and subscribe form fields |
| sms_alert.dfy | `SmsAlert` | `SMSAlertSystem` |
| mail.dfy | `Mailer` | `send_mail` loops with `fail_silently` off and on, and the subject header check |
| digest.dfy | `Digest` | the digest text |
| tasks.dfy | `Tasks` | `send_missing_child_alerts`, `send_daily_digest` |
| http.dfy | `Http` | a view's outcome |
| listings.dfy | `Listings` | `home`, `case_list`, `search_cases`, `case_detail` |
| subscriber_mail.dfy | `SubscriberMail` | `send_alert_to_subscribers` |
| report.dfy | `Report` | `report_missing_child` |
| subscriptions.dfy | `Subscriptions` | `subscribe_alerts`, `verify_email` |
| admin.dfy | `Admin` | `MissingChildAdmin.save_model` |

## Model

| member | source | states |
|---|---|---|
| Strings.Lower | missing_children/views.py:39-43 | case folding keeps the length and folds each character on its own (ASCII letters only) |
| Strings.ContainsOccurs | missing_children/views.py:39-43 | the left-to-right substring scan holds exactly when the needle occurs somewhere in the field (both directions) |
| Strings.ContainsAt | missing_children/tasks.py:20 | a needle found at some position is contained |
| Strings.NatToStringRoundTrip | missing_children/admin.py:15 | `str(n)` is a non-empty digit string whose decimal value is `n` |
| Strings.PadIntValue | missing_children/admin.py:15 | the `04d` padding is all digits and keeps the value `n`, however large `n` is |
| Strings.PadInt | missing_children/admin.py:15 | padding gives width 4, or the full length of `str(n)` when that is longer, so nothing is truncated |
| Strings.FewDigits | missing_children/admin.py:15 | a number below 10^k has at most k digits |
| Strings.LeadingSpace | missing_children/forms.py:36 | the leading run of whitespace: all of it is whitespace, and the character after it is not |
| Strings.TrailingSpace | missing_children/forms.py:36 | the trailing run of whitespace: all of it is whitespace, and the character before it is not |
| Strings.StripShape | missing_children/forms.py:36 | `str.strip()` leaves a value that neither starts nor ends with whitespace, and the input is that value with whitespace before and after it |
| Strings.StripUnique | missing_children/forms.py:36 | a value padded only with whitespace, and itself unpadded, is what stripping returns |
| Strings.StripIdempotent | missing_children/forms.py:36 | stripping twice is stripping once |
| Strings.StripIgnoresPadding | missing_children/forms.py:36 | extra whitespace on either side changes nothing that stripping returns |
| Strings.StripEmpty | missing_children/forms.py:36 | stripping gives the empty string exactly when the input is all whitespace |
| Clock.StampDateShape | missing_children/admin.py:15 | `%Y%m%d` of a valid date is exactly eight digits, which read back as the year, the month and the day |
| Clock.Ordinal | missing_children/models.py:41 | the `-reported_date` sort key; no contract of its own: `OrdinalIsChronological` proves it orders as Python compares datetimes |
| Clock.StampDate | missing_children/admin.py:15 | `%Y%m%d`; no contract of its own: `StampDateShape` states its shape |
| Clock.DateText | missing_children/sms_alert.py:90 | the `%Y-%m-%d` part both formats start with; no contract of its own: `DateTextShape` states its shape |
| Clock.DateTextShape | missing_children/sms_alert.py:90 | `%Y-%m-%d` of a valid value is ten characters with dashes at places 4 and 7, and its fields read back as the year, the month and the day |
| Clock.FormatMinute | missing_children/sms_alert.py:90 | `%Y-%m-%d %H:%M`; no contract of its own: `FormatMinuteShape` states its shape |
| Clock.FormatMinuteShape | missing_children/sms_alert.py:90 | `%Y-%m-%d %H:%M` of a valid value is 16 characters with the separators at their places, and each field reads back as the year, month, day, hour and minute |
| Clock.IsoString | missing_children/views.py:227 | `str(datetime)`; no contract of its own: `IsoStringShape` states its shape |
| Clock.IsoStringShape | missing_children/views.py:227 | `str()` of a valid value is 19 characters: `%Y-%m-%d %H:%M` as above, then `:` and the seconds, each field reading back as its value |
| Clock.OrdinalIsChronological | missing_children/models.py:41 | on valid datetimes, the integer key used for `-reported_date` ordering orders them as Python compares them, and equal keys mean equal datetimes |
| Clock.MinusOneDay | missing_children/tasks.py:61 | `now - timedelta(days=1)` fails only on 0001-01-01; otherwise it is valid, strictly earlier, and one day later gives `now` back |
| Query.Filter | missing_children/views.py:27 | `.filter(p)` holds exactly the rows satisfying `p`, and never more rows than the input |
| Query.FilterSnoc | missing_children/views.py:218 | filtering a list extended by one row extends the result by that row exactly when it passes |
| Query.FilterFilter | missing_children/views.py:46-49 | two chained `.filter` calls are one filter by the conjunction |
| Query.FilterKeepsOrder | missing_children/views.py:27 | filtering a queryset ordered newest first keeps it ordered |
| Query.FilterKeepsAll | missing_children/tasks.py:43 | nothing is dropped exactly when every row passes |
| Query.FilterExt | missing_children/views.py:37-55 | filters by predicates that agree on every row give the same rows |
| Query.FilterAllKept | missing_children/views.py:37-55 | a filter every row passes returns the list unchanged |
| Query.NarrowStep | missing_children/views.py:46-55 | one more `if x: cases = cases.filter(c)` on the rows satisfying `p` leaves the rows satisfying `p` and, when `x` is truthy, `c` |
| Query.Take | missing_children/views.py:15 | `[:n]` is a prefix of length `min(len, n)` |
| Query.TakeKeepsOrder | missing_children/views.py:15 | a prefix of a list ordered newest first stays ordered |
| Query.SortDesc | missing_children/models.py:41 | `order_by('-key')` is sorted by descending key and is a permutation of its input |
| Query.SortDescSameRows | missing_children/models.py:41 | sorting keeps exactly the same rows |
| Query.FilterEmpty | missing_children/tasks.py:67 | a filter returns no row exactly when no row passes it, so `.exists()` is false exactly then |
| Query.TakeIsNewest | missing_children/views.py:15-17 | any row that `[:n]` leaves out of a list sorted newest first is no newer than any row it keeps |
| Models.ParseStatus | missing_children/models.py:7-11 | a status code is accepted exactly when it is one of missing, found and located, and it reads back to that code |
| Models.ParseGender | missing_children/models.py:13-17 | a gender code is accepted exactly when it is M, F or O, and it reads back to that code |
| Models.ParseLeadStatus | missing_children/models.py:71-77 | a lead status is accepted exactly when it is one of the five codes, and it reads back to that code |
| Models.NewMissingChild | missing_children/models.py:34-36 | a new case defaults to status `'missing'`, not abducted, no reporter, blank optional texts |
| Models.NewLocationUpdate | missing_children/models.py:64 | a sighting is stored unverified |
| Models.NewLead | missing_children/models.py:86 | a lead is stored with status `'new'` |
| Models.NewAlertSubscription | missing_children/models.py:94-99 | an e-mail subscription starts subscribed, unverified, with a blank token |
| Models.NewSmsSubscription | missing_children/models.py:115-122 | an SMS subscription starts unverified, active, with a 10-mile radius and no code |
| Models.FindCase | missing_children/tasks.py:14 | no case is found exactly when no row has the id, compared as canonical UUID text; a found case is a row with that id |
| Models.ChildLabel | missing_children/models.py:43-44 | `str(child)` is the first name, then a space and the last name, then `" - "` and the case number; its length is the sum of the parts |
| Models.SmsLabel | missing_children/models.py:127-128 | `str(subscription)` is the phone number followed by `" - Verified"` exactly when it is verified, and by `" - Pending"` exactly when it is not |
| Models.UpsertRows | missing_children/models.py:19-20 | an update by primary key keeps every other row and stores the record |
| Models.Upsert | missing_children/models.py:18 | an update by primary key keeps the row count or adds one row, and the record is stored |
| Models.SaveCase | missing_children/models.py:18-19 | `save()` succeeds exactly when it adds no second row with the same key and gives no other row the same case number; a refusal is `IntegrityError`; a success stores the record, and an insert appends it |
| Models.SaveCaseKeepsUnique | missing_children/models.py:19-20 | a save that is not refused stores the record and keeps ids and case numbers unique |
| Models.UpsertUnique | missing_children/models.py:20 | an update whose case number no other row holds keeps both columns unique |
| Models.ChildTable.Save | missing_children/models.py:19-20 | `save()` stores the record or raises `IntegrityError` for a duplicate key or case number, leaving the table unchanged; uniqueness is preserved |
| Models.SubscriptionTable.Add | missing_children/models.py:94 | inserting a new address appends it and keeps e-mails unique |
| Models.SubscriptionTable.MarkVerified | missing_children/views.py:149-150 | setting `verified` changes that one row's flag and nothing else |
| Forms.CleanGender | missing_children/forms.py:39 | the gender choice accepts exactly `''`, M, F and O, and `''` means no filter |
| Forms.CleanStatus | missing_children/forms.py:40 | the status choice accepts exactly `''`, missing, found and located, and `''` means no filter |
| Forms.CleanSearch | missing_children/forms.py:35-41 | the search form is valid exactly when each age is absent or within 0..18, each choice is allowed, and the location has at most 100 characters after stripping; the cleaned `q` and location are the input with surrounding whitespace removed, the other fields carry the input |
| Forms.EmptySearchIsValid | missing_children/forms.py:36-41 | every field is optional: an empty submission is valid and asks for no filter |
| Forms.SearchIgnoresPadding | missing_children/forms.py:36-41 | whitespace around `q` or the location leaves the cleaned search unchanged |
| Forms.ChildFromForm | missing_children/forms.py:5-12 | the report form stores each submitted text field with surrounding whitespace removed and copies the other fields; status, case number and reporter take their defaults |
| Forms.ReportTextIsStripped | missing_children/forms.py:5-12 | an accepted report stores non-empty required names and location, and no stored text field starts or ends with whitespace |
| Forms.PublicFormsOmitServerFields | missing_children/forms.py:8-12 | neither the report form nor the subscribe form exposes a server-controlled field |
| SmsAlert.FormatSmsMessage | missing_children/sms_alert.py:100-104 | the text never exceeds 1600 characters; a shorter one is unchanged, a longer one becomes its first 1597 characters and `"..."` |
| SmsAlert.RawSmsMessage | missing_children/sms_alert.py:85-98 | before the cut, the text starts with the fixed head (name, age, date, place) and ends with the fixed tail (the 911 line, the case line and the link) |
| SmsAlert.AbductionLineIff | missing_children/sms_alert.py:93-94 | before the cut, the abduction line follows the fixed head exactly when the case is flagged as abducted |
| SmsAlert.SpliceIff | missing_children/sms_alert.py:93-96 | an optional segment is found at its place exactly when it was spliced in |
| SmsAlert.CaseNumberInMessage | missing_children/sms_alert.py:97 | before the cut, the text always contains `"Case #"` followed by the case number |
| SmsAlert.FoundInside | missing_children/sms_alert.py:96-98 | a part of a concatenation is contained in it |
| SmsAlert.AbductionLineSurvivesCut | missing_children/sms_alert.py:93-103 | when the head and the warning fit before the cut, the sent text keeps the abduction iff |
| SmsAlert.AlertCrashSticks | missing_children/sms_alert.py:30-49 | once an exception escapes the loop, later numbers change nothing |
| SmsAlert.AlertRun | missing_children/sms_alert.py:28-51 | the alert loop as a recursion over prefixes of the numbers; no contract of its own: `AlertRunShape`, `AlertAttemptsFollowPhones` and `AlertRunEntry` state its properties |
| SmsAlert.AlertAttemptsFollowPhones | missing_children/sms_alert.py:30-51 | the calls go to a prefix of the numbers in order, from the configured sender; all numbers are tried when nothing escapes; at most one result per call |
| SmsAlert.AlertRunShape | missing_children/sms_alert.py:28-51 | without an escaping exception there is one call and one result per number, in input order; `phone` is that number, and `success` is true exactly when the provider created the message |
| SmsAlert.AlertRunEntry | missing_children/sms_alert.py:30-36 | call `i` uses the body the loop holds after the first `i` numbers |
| SmsAlert.AlertRunPrefix | missing_children/sms_alert.py:30-36 | when nothing escapes, the run over the first `j` numbers is itself crash-free, tries all `j` of them, and its calls are the first `j` calls of the whole run |
| SmsAlert.FirstSendUsesText | missing_children/sms_alert.py:27-33 | the first call always carries the alert text |
| SmsAlert.NextBodyAsWritten | missing_children/sms_alert.py:32-33 | as written, the call after a success carries the returned message object; after a failure the body is kept |
| SmsAlert.SecondSendUsesProviderObject | missing_children/sms_alert.py:32 | two numbers and a provider that accepts both: the second text is the provider's object, not the alert |
| SmsAlert.IntendedSendsAlwaysText | missing_children/sms_alert.py:32-33 | when the returned object is kept apart from the body, every call carries the alert text |
| SmsAlert.RestErrorsDoNotStop | missing_children/sms_alert.py:43-49 | when the provider raises only `TwilioRestException`, the loop reaches every number and returns one result each |
| SmsAlert.FromSmsSubscription | missing_children/sms_alert.py:120 | an `SMSSubscription` row has no `phone_verified` attribute, so the sighting loop's test on it raises |
| SmsAlert.SightingCrashSticks | missing_children/sms_alert.py:119-137 | once an exception escapes the sighting loop, later subscribers change nothing |
| SmsAlert.SightingRun | missing_children/sms_alert.py:118-139 | the sighting loop as a recursion over prefixes of the subscribers; no contract of its own: `SightingRunShape` states its properties |
| SmsAlert.SightingRunShape | missing_children/sms_alert.py:118-139 | without an escaping exception there is one call and one result per subscriber with both flags true, in order, all with the same text; a result succeeds iff the provider created the message, and a failed one carries the provider's error text; other subscribers get neither |
| SmsAlert.MissingAttributeRaises | missing_children/sms_alert.py:120 | a first subscriber lacking `phone_verified` makes the loop raise `AttributeError` before any send |
| SmsAlert.SendEach | missing_children/sms_alert.py:27-51 | the loop with `message` rebound is the specification run: its calls, and its results or the exception that escaped |
| SmsAlert.NotifyEach | missing_children/sms_alert.py:118-139 | the loop over subscribers is the specification run of the sighting loop |
| SmsAlert.SmsAlertSystem.constructor | missing_children/sms_alert.py:10-19 | a client exists exactly when both credentials are non-empty and construction does not raise |
| SmsAlert.SmsAlertSystem.SendSmsAlert | missing_children/sms_alert.py:21-51 | no client gives `False` and no call; a plain string raises on `first_name`; otherwise the result is the alert loop over the formatted text |
| SmsAlert.SmsAlertSystem.SendVerificationSms | missing_children/sms_alert.py:53-67 | no client gives `False` and no request; the answer is true exactly for status `'pending'`; a `TwilioRestException` gives `False` |
| SmsAlert.SmsAlertSystem.VerifySmsCode | missing_children/sms_alert.py:69-83 | no client gives `False` and no request; the answer is true exactly for status `'approved'`; a `TwilioRestException` gives `False` |
| SmsAlert.SmsAlertSystem.SendLocationUpdateSms | missing_children/sms_alert.py:106-139 | no client gives `False` and no call; otherwise the result is the sighting loop over the sighting text |
| Mailer.Addressed | missing_children/views.py:218-237 | one message per address, in order, the same apart from the address |
| Mailer.AddressedReaches | missing_children/views.py:218-237 | every address gets the message, and every message goes to one of the addresses |
| Mailer.LineBreakConcat | missing_children/views.py:219-220 | a concatenation holds a line break exactly when one of its parts does |
| Mailer.MailAll | missing_children/tasks.py:23-30 | the `fail_silently=False` loop hands at most one message per mail to the transport; the only exceptions it lets escape are a mail failure and a refused subject |
| Mailer.MailAllPrefix | missing_children/tasks.py:23-30 | the mails tried are a prefix of the list; the loop finishes without an exception exactly when every subject passes the header check and the transport takes every mail |
| Mailer.MailAllSent | missing_children/tasks.py:23-30 | the mails handed to the transport are a prefix of the list, and all of it when nothing escaped |
| Mailer.MailAllSucceeds | missing_children/tasks.py:23-30 | nothing escapes the loop exactly when every subject passes the header check and the transport takes every mail |
| Mailer.MailAllStops | missing_children/tasks.py:23-30 | a loop that ends with a mail failure stopped at the refused mail and reports its recipient; one that ends with `BadHeaderError` stopped just before the first refused subject; every earlier mail went through |
| Mailer.MailAllStopsAtRefusal | missing_children/tasks.py:23-30 | a loop that ends with a mail failure stopped at the refused mail, whose subject passed, and reports its recipient; every earlier mail went through |
| Mailer.MailAllStopsAtHeader | missing_children/tasks.py:23-30 | a loop that ends with `BadHeaderError` stopped just before the first refused subject, and every mail handed over went through |
| Mailer.FirstSubjectRefused | missing_children/tasks.py:23-30 | a refused first subject raises `BadHeaderError` with nothing handed to the transport |
| Mailer.MailCrashSticks | missing_children/tasks.py:23-30 | after a refused mail, later mails are not tried |
| Mailer.MailEach | missing_children/tasks.py:23-30 | the `fail_silently=False` loop is the specification run |
| Mailer.SafePrefix | missing_children/views.py:218-238 | the length of the longest prefix whose subjects pass the header check: every mail before it passes and the one at it does not |
| Mailer.SendEachSilently | missing_children/views.py:218-238 | with `fail_silently=True` every mail up to the first refused subject is handed to the transport, and the delivered ones are those it took; a refused subject raises `BadHeaderError` and ends the loop |
| Digest.Blocks | missing_children/tasks.py:69-72 | one block per case, in order: entry `i` is case `i`'s block |
| Digest.JoinSnoc | missing_children/tasks.py:69-72 | joining one more block appends it |
| Digest.JoinPrefix | missing_children/tasks.py:69-72 | the blocks written so far are a prefix of the final text |
| Digest.BuildDigestBody | missing_children/tasks.py:68-74 | the `+=` loop builds the header, each case's block in order, then the footer |
| Digest.DigestText | missing_children/tasks.py:68-74 | the digest starts with the header and ends with the footer |
| Digest.JoinAt | missing_children/tasks.py:68-74 | block `i` sits right after the blocks before it |
| Digest.DigestLayout | missing_children/tasks.py:68-74 | the digest starts with the header and ends with the footer, and case `i`'s block sits right after the blocks of the cases before it |
| Digest.LineInPart | missing_children/tasks.py:70-72 | a line inside a block occurs in the digest |
| Digest.DigestMentionsEveryCase | missing_children/tasks.py:72 | every case's `"  Case #<number>"` line occurs in the digest |
| Tasks.EmailRecipients | missing_children/tasks.py:17-21 | the alert recipients are exactly the subscribed, verified subscriptions whose location contains the first 50 characters of the last-seen location, ignoring case |
| Tasks.SmsRecipients | missing_children/tasks.py:34-37 | the SMS recipients are exactly the verified and active subscriptions, newest first |
| Tasks.Phones | missing_children/tasks.py:39 | one number per subscription, in order: entry `i` is subscription `i`'s phone number |
| Tasks.SuccessCount | missing_children/tasks.py:43 | the success count never exceeds the result count, and equals it exactly when every send succeeded |
| Tasks.SuccessCountCounts | missing_children/tasks.py:43 | the success count is the number of positions holding a successful result |
| Tasks.CountsAccepted | missing_children/tasks.py:43-48 | in a run where nothing escaped, the success count is the number of calls the provider answered with a created message |
| Tasks.AlertMails | missing_children/tasks.py:23-30 | one mail per recipient, in order: mail `i` is the alert to recipient `i`'s address |
| Tasks.AlertMailsHeaderSafe | missing_children/tasks.py:24-25 | an alert mail passes the header check exactly when neither of the child's names holds a line break |
| Tasks.SmsDispatchShape | missing_children/tasks.py:39-48 | texts go in order to verified, active subscriptions from the configured number; a report's `sms_sent` is the number of texts the provider created, never more than the texts sent; only provider errors escape |
| Tasks.RunReachesSubscribers | missing_children/tasks.py:39-40 | the SMS loop texts a prefix of the recipients in order, all of them when nothing escapes |
| Tasks.AfterMailsShape | missing_children/tasks.py:32-50 | after the mails, a mail failure or a disabled gateway ends the job with no text; otherwise texts reach only verified, active subscriptions, and a report's `sms_sent` is the number of texts the provider created; only `TypeError` or provider errors escape |
| Tasks.SendMissingChildAlerts | missing_children/tasks.py:10-54 | the job's report, mails and texts are those of the specification job |
| Tasks.AlertTask | missing_children/tasks.py:11-54 | the alert job as written; no contract of its own: `SendMissingChildAlerts` is proved equal to it, and `AfterMailsShape`, `AlertMailsGoToMatchingSubscribers` and `DisabledGatewayRaises` state its properties |
| Tasks.UnknownChildSendsNothing | missing_children/tasks.py:52-54 | an id, in canonical UUID text, that no case holds reports "Child not found" and sends nothing |
| Tasks.AlertMailsGoToMatchingSubscribers | missing_children/tasks.py:17-30 | each mail goes, in order, to a matching subscriber; a completed job mailed all of them, and `emails_sent` is their number, not a delivery count |
| Tasks.MailsInOrder | missing_children/tasks.py:23-30 | the alert mails tried go to a prefix of the recipients in order, all of them when none fails |
| Tasks.MailFailureStopsSms | missing_children/tasks.py:24-30 | a refused alert mail or a refused subject ends the job before any SMS |
| Tasks.LineBreakInNameStopsAlerts | missing_children/tasks.py:24-30 | a found case whose name holds a line break, with a matching subscriber, raises `BadHeaderError` before any mail or text |
| Tasks.AlertCrashIsProvider | missing_children/sms_alert.py:43-49 | only the provider's own exceptions escape the SMS loop |
| Tasks.AlertTextsGoToActiveSubscribers | missing_children/tasks.py:33-48 | every text goes to a verified, active subscription from the configured number, and `sms_sent` is the number of texts the provider created |
| Tasks.DisabledGatewayRaises | missing_children/tasks.py:40-43 | as written, when the names hold no line break and every mail is taken, a disabled gateway makes the job raise `TypeError` once the mails are out, with no text sent |
| Tasks.IntendedEmailRecipients | missing_children/tasks.py:17-21 | corrected recipients: subscribed and verified, and either no location or a location that the case's location mentions |
| Tasks.CitySubscriberIsAlerted | missing_children/tasks.py:20 | corrected: a subscriber for a city is alerted about a case last seen at an address that names the city |
| Tasks.CitySubscriberMissedAsWritten | missing_children/tasks.py:20 | as written, a "Springfield" subscriber is not alerted about a case seen at "Main St, Springfield" |
| Tasks.DisabledGatewayReportsZero | missing_children/tasks.py:40-50 | corrected: with the gateway disabled, names without line breaks and every mail taken, the mails still count and `sms_sent` is 0 |
| Tasks.IntendedTextsCarryAlert | missing_children/sms_alert.py:32 | corrected: every text of the job carries the alert |
| Tasks.IntendedAlertTask | missing_children/tasks.py:11-54 | the corrected alert job; no contract of its own: `CitySubscriberIsAlerted`, `DisabledGatewayReportsZero` and `IntendedTextsCarryAlert` state its properties |
| Tasks.NewCaseIffNotEarlier | missing_children/tasks.py:62-65 | a case is new exactly when it is missing and not reported before the cutoff |
| Tasks.NewCases | missing_children/tasks.py:62-65 | the digest's cases are exactly the missing cases reported at or after the cutoff, newest first |
| Tasks.UnknownField | missing_children/tasks.py:78-82 | a lookup fails exactly when some name is not a field of the model, and then reports such a name |
| Tasks.SendDailyDigest | missing_children/tasks.py:56-87 | the job's report and texts are those of the specification digest |
| Tasks.DailyDigest | missing_children/tasks.py:57-87 | as written, the digest job never sends a text, whatever the day |
| Tasks.QuietDaySendsNothing | missing_children/tasks.py:67-87 | with no new case the digest sends nothing and reports 0 |
| Tasks.BusyDayRaisesFieldError | missing_children/tasks.py:78-85 | as written, a day with a new case raises `FieldError` on `digest_frequency` before any text |
| Tasks.IntendedDigestReachesSubscribers | missing_children/tasks.py:76-87 | corrected: `digest_sent` counts the new cases, a quiet day sends nothing, and every text is the digest sent to a verified, active subscriber |
| Tasks.IntendedDailyDigest | missing_children/tasks.py:57-87 | the corrected digest job; no contract of its own: `IntendedDigestReachesSubscribers` states its properties |
| Listings.Newest | missing_children/views.py:12-17 | the selection has `min(qualifying, n)` rows, each a qualifying case, newest first |
| Listings.NewestLeavesOutOnlyOlder | missing_children/views.py:15-17 | a qualifying case left out is no newer than any case shown |
| Listings.Home | missing_children/views.py:11-17 | the home page's two selections; no contract of its own: `HomePageSelection` states its properties |
| Listings.HomePageSelection | missing_children/views.py:11-17 | the home page shows at most 5 missing abducted cases and at most 10 missing cases; there are fewer only when fewer exist; each list is newest first |
| Listings.NarrowUpToIsFilter | missing_children/views.py:37-55 | the first `k` chained filters are one filter by the conjunction of their conditions |
| Listings.AllStagesKeep | missing_children/views.py:37-55 | passing all six chained filters is the conjunction `Keeps` |
| Listings.NarrowedIsConjunction | missing_children/views.py:37-55 | the chained filters keep exactly the rows that satisfy every supplied condition |
| Listings.CaseList | missing_children/views.py:25-55 | `case_list` as a function of the rows and the query string; no contract of its own: `CaseListSelects` states its properties |
| Listings.SearchCases | missing_children/views.py:181-208 | `search_cases` as a function of the rows and the query string; no contract of its own: `SearchCasesSelects` states its properties |
| Listings.CaseListSelects | missing_children/views.py:25-55 | the case list holds exactly the missing cases that satisfy every supplied filter (all of them when the form is invalid), newest first |
| Listings.SearchCasesSelects | missing_children/views.py:181-207 | the search page holds exactly the cases, of any status, that satisfy every supplied filter, newest first |
| Listings.SameKeepsSameRows | missing_children/views.py:37-55 | two filter sets that keep the same rows narrow any list alike |
| Listings.ZeroMinAgeIsNoBound | missing_children/views.py:46-47 | `age_min=0` is falsy: both views give the same rows as with no minimum |
| Listings.ZeroMaxAgeIsNoBound | missing_children/views.py:48-49 | `age_max=0` is falsy: both views give the same rows as with no maximum |
| Listings.FoundFilterListsNothing | missing_children/views.py:52-53 | filtering the case list by status `found` leaves nothing |
| Listings.BlankQueryIsNoQuery | missing_children/views.py:37-38 | a `q` of whitespace only is stripped to the empty string, so both views give the same rows as with no `q` |
| Listings.SearchIgnoresStatus | missing_children/views.py:185-207 | the search page ignores a valid status choice |
| Listings.FeaturesOnlyInCaseList | missing_children/views.py:37-44 | a case matched by the stripped `q` only in its distinctive features appears in the case list but not on the search page |
| Listings.CaseDetail | missing_children/views.py:67-69 | an unknown primary key is a 404; otherwise the page shows the case and exactly its verified sightings, latest first |
| SubscriberMail.Emails | missing_children/views.py:236 | one address per subscription, in order: entry `k` is subscription `k`'s e-mail |
| SubscriberMail.EnabledEmails | missing_children/views.py:216 | the alert addresses are exactly those of the subscribed and verified subscriptions |
| SubscriberMail.AlertsReachExactlyEnabled | missing_children/views.py:215-238 | every subscribed, verified subscription is sent the alert; every alert goes to one of them with the child's name in the subject |
| SubscriberMail.SubjectBreaksIffName | missing_children/views.py:219-220 | the alert subject holds a line break exactly when the first or last name does |
| SubscriberMail.SubjectRefusedIffNameBreaks | missing_children/views.py:215-238 | all alerts share the subject, so the header check passes all of them or refuses the first |
| SubscriberMail.SendAlertToSubscribers | missing_children/views.py:215-238 | when the subject has no line break, or there is no one to mail, every alert is handed to the transport whatever became of the others, and the delivered ones are those it took; otherwise `BadHeaderError` escapes before the first alert, despite `fail_silently=True` |
| Report.ReportedChild | missing_children/views.py:80-82 | the saved report has status missing whatever was submitted, the session user or no one as reporter, and the submitted fields as the form stripped them |
| Report.SubmitReport | missing_children/views.py:76-89 | the report view as a function of the old state; no contract of its own: `ReportMissingChild` is proved equal to it, and `AcceptedReportIsMissing`, `LineBreakInNameRaises` and `SecondPublicReportCollides` state its properties |
| Report.ReportMissingChild | missing_children/views.py:76-89 | the view's response, table and mails are those of the specification, and the table stays unique |
| Report.AcceptedReportIsMissing | missing_children/views.py:79-86 | an accepted report appends one missing case with the submitter as reporter, keeps uniqueness, and hands the alert to every enabled subscription in table order; the delivered ones are those the transport took |
| Report.LineBreakInNameRaises | missing_children/views.py:79-86 | a saved report whose name holds a line break, with an enabled subscription, raises `BadHeaderError`: the case stays saved and no alert reaches the transport |
| Report.SecondPublicReportCollides | missing_children/views.py:80-83 | a report when a blank case number is already stored raises `IntegrityError` with the table unchanged and no mail |
| Subscriptions.ParseVerifyPath | missing_children/urls.py:12 | a path the route accepts is the verification path of the token it yields |
| Subscriptions.VerifyPathRoundTrip | missing_children/views.py:128-130 | the mailed path routes back to its token exactly when the token is non-empty and has no `/` |
| Subscriptions.UuidTokensRoute | missing_children/views.py:124 | every `str(uuid4())` token routes back to itself |
| Subscriptions.Subscribe | missing_children/views.py:119-140 | the sign-up view as a function of the old state; no contract of its own: `SubscribeAlerts` is proved equal to it, and `PaddedDuplicateRerenders` and `SubscribeThenVerify` state its properties |
| Subscriptions.PaddedDuplicateRerenders | missing_children/views.py:121-122 | an address that, once stripped, is already stored re-renders the form with no row added and no mail, however much whitespace surrounds it |
| Subscriptions.SubscribeAlerts | missing_children/views.py:119-140 | the view's response, table and mails are those of the specification, and e-mails stay unique |
| Subscriptions.TokenMatches | missing_children/views.py:148 | the matches are exactly the positions of the rows holding the token, in increasing order |
| Subscriptions.VerifyEmail | missing_children/views.py:147-153 | the verification view as a function of the old state; no contract of its own: `VerifyEmailView` is proved equal to it, and `NoMatch`, `SingleMatch`, `SharedTokenRaises` and `VerifyIdempotent` state its properties |
| Subscriptions.VerifyEmailView | missing_children/views.py:147-153 | the view's response and table are those of the specification, and e-mails stay unique |
| Subscriptions.NoMatch | missing_children/views.py:148 | a token no row holds has no match |
| Subscriptions.SingleMatch | missing_children/views.py:148 | a token only row `i` holds matches exactly row `i` |
| Subscriptions.UnknownTokenChangesNothing | missing_children/views.py:148 | an unknown token is a 404 and no row changes |
| Subscriptions.MatchedTokenVerifiesOnlyItsRow | missing_children/views.py:148-150 | the one row holding the token becomes verified, keeps its token, and nothing else changes |
| Subscriptions.SharedTokenRaises | missing_children/views.py:148 | two rows holding the token make verification raise `MultipleObjectsReturned` |
| Subscriptions.VerifyIdempotent | missing_children/views.py:147-153 | following the link twice is the same as following it once |
| Subscriptions.SubscribeThenVerify | missing_children/views.py:119-153 | after subscribing with a fresh token and following the mailed link, the new row is verified and subscribed, so alert mails reach it; earlier rows are unchanged |
| Admin.ParseCaseNumber | missing_children/admin.py:15 | a read-back case number carries an eight-digit date stamp |
| Admin.CaseNumber | missing_children/admin.py:15 | a generated number has at least 16 characters, starts with `"MC-"`, and has a `-` right after the date stamp |
| Admin.CaseNumberRoundTrip | missing_children/admin.py:15 | a generated number is `"MC-"` + `%Y%m%d` + `"-"` + `count + 1`; it reads back to that date and serial, the serial padded to at least four digits and never truncated |
| Admin.CaseNumbersDiffer | missing_children/admin.py:15 | a different count or a different day gives a different number |
| Admin.Defaulted | missing_children/admin.py:12-17 | a case number is generated only when blank, and the reporter is set only when unset; nothing else changes |
| Admin.DefaultsAreKept | missing_children/admin.py:12-17 | a later save never overwrites the number or reporter that the first save gave |
| Admin.SaveModel | missing_children/admin.py:11-18 | the instance gets the defaults in place, then the table saves it (insert when new, update otherwise) or raises, unchanged |

## Left out

- Twilio and `send_mail` transport internals: each is a function parameter that answers a request.
- Mailer.HeaderSafe: checks only the subject for line breaks. The from address is configuration, and the to address has passed the e-mail validator. The SMTP backend with `fail_silently=True` skips building the message when it cannot open a connection, and then no `BadHeaderError` is raised; the model raises regardless of the connection.
- Django ORM query execution and `get_object_or_404`: querysets are sequences in table order, and lookups search them.
- Models.FindCase: compares primary keys as canonical UUID text (lower-case, hyphenated, as `str(uuid4())` gives). This is exact on the `case/<uuid:pk>/` route, whose converter accepts only that form. For `send_missing_child_alerts(child_id)`, which nothing in the repository calls, `get(id=child_id)` first parses the argument as a UUID. A `child_id` that is not UUID text raises `ValidationError` there, which the `except MissingChild.DoesNotExist` handler does not catch. Another spelling of a stored UUID (upper-case, no hyphens, braces) finds the case. Tasks.UnknownChildSendsNothing therefore holds only for a `child_id` in canonical form; Python's `uuid.UUID` parsing is not modelled.
- The database row order of each table: the model takes it as given.
- `Paginator` page slicing, template rendering, `messages.success` and the redirect targets' URLs: these are presentation. A view's outcome is reduced to `Http.Response`.
- `uuid.uuid4()` and `datetime.now()`: the token and the time are parameters.
- `request.build_absolute_uri`: its scheme and host are the `origin` parameter.
- The e-mail address validator: it is the `isEmail` parameter.
- Logging (`logger.info`, `logger.error`): it has no effect on results.
- Celery registration and queueing, and `lost_kids/celery_app.py`: the tasks are modelled as plain calls.
- URL routing beyond the `verify-email/<str:token>/` route.
- Admin display options (`list_display`, `list_filter`, `search_fields`, `readonly_fields`).
- Photo and evidence uploads, and `RichTextField` editing: the fields are plain strings.
- The report form's age, date and photo checks: they are the `formOk` parameter. The required text fields and the `max_length` limits are modelled.
- The `submit_lead`, `submit_location_update` and `emergency_contacts` views and the `AbductorInformation` and `EmergencyContact` records: they do not take part in notification.
- `auto_now` timestamps (`updated_at`) and microseconds.
- Strings.Lower: folds ASCII letters only. Django's `__icontains` folds case as the database does, which for non-ASCII text is not modelled.
- Clock.IsoString: gives `str(datetime)` without microseconds or a time-zone suffix. An aware `datetime` would print its UTC offset after the seconds.
- Clock.StampDate: always pads `%Y` to four digits.
- Clock.Ordinal: the key is proved chronological only for valid datetimes, which are the only ones Python can build.
- SmsAlert.FormatSmsMessage: measures length in Unicode code points, as Python's `len` does. Twilio's segment accounting is not modelled.
- Listings.CaseList: returns the whole list, not one 20-row page: the 20-per-page pagination is not modelled.

## Findings

| source | as written | input that shows it | evidently intended | confidence | as-written member | corrected member |
|---|---|---|---|---|---|---|
| missing_children/sms_alert.py:32 | `message` is rebound to the object `messages.create` returns | two phone numbers and a provider that accepts both: the second call's body is the first message object | every recipient receives the alert text | not executed | SmsAlert.SecondSendUsesProviderObject | SmsAlert.IntendedSendsAlwaysText |
| missing_children/tasks.py:40-43 | `send_sms_alert` returns `False` without a client, and line 43 iterates it | any found case with names free of line breaks, empty Twilio credentials and a transport that takes every mail: the job raises `TypeError` | report the mails sent and `sms_sent = 0` | not executed | Tasks.DisabledGatewayRaises | Tasks.DisabledGatewayReportsZero |
| missing_children/tasks.py:20 | the subscription's location must contain the case's `last_seen_location[:50]` | case at "Main St, Springfield", subscriber for "Springfield": not alerted | a subscriber for an area hears about cases whose location mentions it | not executed | Tasks.CitySubscriberMissedAsWritten | Tasks.CitySubscriberIsAlerted |
| missing_children/tasks.py:78-85 | filters on `digest_frequency`, which `SMSSubscription` lacks, and passes the digest text where a case is expected | any day with one new missing case: `FieldError` before any text | verified, active subscribers receive the digest text | not executed | Tasks.BusyDayRaisesFieldError | Tasks.IntendedDigestReachesSubscribers |
