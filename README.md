# get_device_alarms in Dafny

get_device_alarms polls GPS alarm services (IOPGPS, also called WanWayTech, and
WhatsGPS) for vehicle-tracking devices. It converts the vendor records to one
canonical alarm shape and stores them in a backend. It then sends WhatsApp notices for
the critical alarms: SOS, power cut or removal (REMOVE), and low voltage (LOWVOT).

A Director runs a chain of five stages every 30 seconds:

1. DeviceController asks the backend for the tracked devices.
2. RequestGenerator builds one polling URL per device and moves the device's watermark.
3. RequestExecutor fetches every URL and translates the records through the two provider adapters.
4. DataSaver posts every alarm.
5. MessageSender keeps the critical alarms and notifies each device's recipients.

Older snapshots of the same program live beside the chain:

- a per-user cron job (`cronjob.go`, `api.go`) with a retrying fetch;
- an older message builder (`message_builder.go`, `user.go`);
- two versions of the IOPGPS access-token cache (`token.go`, `auth/autheticator.go`);
- the App loop (`app.go`), which refreshes the token and the users and processes users nine at a time.

Each Go file is one Dafny module (one `.dfy` file). The shared pieces are:

- `wrappers.dfy`: Option and Result.
- `text.dfy`: decimal rendering and parsing as strconv does it, and trimming and searching text.
- `alarm.dfy`, `handler.dfy`, `http.dfy`: the alarm records, the payloads passed between stages, and HTTP outcomes.
- `tokencache.dfy`: the token cache rules both token files share.

Things the program reaches outside itself become parameters of the operations:

- HTTP replies, JSON decoding and the backend;
- the geocoder, the clock, MD5, and float and local-time rendering.

The Go types that the code mutates become classes with `modifies` clauses:

- Device's watermark;
- the DeviceController's last device list;
- the CronJob's current time;
- the Authenticator's token;
- the token environment;
- the Director's chain;
- the scheduler's flags;
- the App's token and users.

Loops in the source are `while`/`for` loops, specified by functions and lemmas about them.

## Model

| member | source | states |
|---|---|---|
| AlarmAdapter.AlarmCodeOf | alarmadapter.go:39-85 | the code is never empty; it is UNKNOWN exactly for vendor types outside {1..19, 31, 32} |
| AlarmAdapter.AlarmTypeOf | alarmadapter.go:87-133 | a vendor type outside the table is returned unchanged |
| AlarmAdapter.TablesAgree | alarmadapter.go:39-133 | both switches agree with one reference table of (code, type) pairs, and they agree with each other on which vendor types are known |
| AlarmAdapter.SharedCodes | alarmadapter.go:43-126 | LOWVOT iff 3 or 8 (both type 2), SOS iff 4, REMOVE iff 7, 10 or 11 (types 1, 11, 10), FENCEIN iff 17 or 18 (type 17), FENCEOUT iff 6 or 19 (type 16) |
| AlarmAdapter.CriticalVendorTypes | alarmadapter.go:39-85 | a vendor type leads to a notification exactly when it is 3, 4, 7, 8, 10 or 11 |
| AlarmAdapter.ToAlarmRequest | alarmadapter.go:13-26 | each of the ten fields is copied unchanged and the address is absent |
| AlarmAdapter.ConvertAlarmDataToRequest | alarmadapter.go:28-31 | gives exactly the pass-through adapter's result |
| AlarmAdapter.ToAlarmRequestKeeps | alarmadapter.go:13-26 | two records translate alike iff they agree on every field except code and alarm time, which the adapter drops, so it is deterministic |
| AlarmAdapter.WhatsGPSToAlarmRequest | alarmadapter.go:143-165 | position type GPS, course 0, device type 1, the vendor speed, both coordinates present, IMEI the decimal car id, code and type from the two tables, time the Unix seconds of the alarm time |
| AlarmAdapter.ConvertWhatsGPSAlarmDataToRequest | alarmadapter.go:167-170 | gives exactly the WhatsGPS adapter's result |
| AlarmAdapter.WhatsGPSImeiParsesBack | alarmadapter.go:154 | the IMEI of a translated alarm parses back to the car id |
| AlarmAdapter.WhatsGPSNullTime | alarmadapter.go:158 | an alarm whose time was null carries Go's zero-time Unix value -62135596800 |
| WhatsGPS.ZeroTimeUnix | whatsgps.go:50-53 | the zero time is -62135596800 Unix seconds and 1970-01-01 is 0 |
| WhatsGPS.Format | whatsgps.go:46 | 19 characters with the separators of YYYY-MM-DD hh:mm:ss in place |
| WhatsGPS.ParseClock | whatsgps.go:54 | a parsed clock has hour < 24, minute < 60 and second < 60 |
| WhatsGPS.ParseLayout | whatsgps.go:54 | a text that parses has a space after the date and at least 17 characters |
| WhatsGPS.UnmarshalCustomTime | whatsgps.go:48-56 | every leading and trailing quote is stripped; null gives the zero time without error; anything else goes through the layout parser |
| WhatsGPS.MarshalCustomTime | whatsgps.go:58-63 | null exactly for the zero time; otherwise the layout text inside one pair of quotes |
| WhatsGPS.DigitsOfFourDigits | whatsgps.go:46 | the four printed year digits recompose the year |
| WhatsGPS.ParseClockText | whatsgps.go:54 | the clock half of the layout is read back as the same hour, minute and second |
| WhatsGPS.DateTextDigits | whatsgps.go:54 | the date half's digits spell its year, month and day |
| WhatsGPS.ParseFormat | whatsgps.go:46-62 | parsing the layout text of any instant gives that instant back |
| WhatsGPS.UnmarshalMarshal | whatsgps.go:48-63 | unmarshal(marshal(t)) == t for every instant other than the zero time |
| WhatsGPS.UnmarshalMarshalZero | whatsgps.go:48-63 | the zero time survives the round trip by way of null |
| WhatsGPS.DateTextOfDigits | whatsgps.go:46 | a date half with digits where the layout has them is the date half of the values it spells |
| WhatsGPS.ClockTextOfDigits | whatsgps.go:46 | the same for the clock half |
| WhatsGPS.ParsedFields | whatsgps.go:54 | the fields a canonical text parses to are read off its digits |
| WhatsGPS.FormatParse | whatsgps.go:54-62 | a canonical text that parses is reproduced exactly by formatting what it parsed to |
| WhatsGPS.UnmarshalQuoted | whatsgps.go:48-55 | unmarshalling a quoted canonical text is parsing the text itself |
| WhatsGPS.FormatZeroTime | whatsgps.go:58-62 | the zero time formats as 0001-01-01 00:00:00 |
| WhatsGPS.ZeroTextIsZeroTime | whatsgps.go:48-62 | 0001-01-01 00:00:00 parses to the zero time |
| WhatsGPS.MarshalUnmarshal | whatsgps.go:48-63 | a quoted canonical text comes back unchanged, except the text of the zero time, which comes back as null |
| MsgBuilder.AddDetail | msgbuilder.go:118-123 | empty exactly for an empty value; otherwise a newline, the label, ": " and the value |
| MsgBuilder.GetUserDetails | msgbuilder.go:82-96 | absent fields become ""; the VIN is blank whenever it equals the plate and is the device's VIN otherwise |
| MsgBuilder.GetAlert | msgbuilder.go:98-116 | never empty; SOS gives the SOS header and LOWVOT the low-voltage header; REMOVE gives dismount for type 1, light sensor for 10, power cut otherwise; ALERTA DESCONOCIDA exactly for every other code |
| MsgBuilder.GetCoordinates | msgbuilder.go:30-38 | an absent coordinate reads as "" |
| MsgBuilder.GetGoogleMapsLink | msgbuilder.go:57-64 | empty exactly when a coordinate is missing or empty; otherwise the maps search link |
| MsgBuilder.GetAlarmAddress | msgbuilder.go:40-55 | the unknown location when a coordinate is missing and when the geocoder finds no address |
| MsgBuilder.AddressWithLink | msgbuilder.go:50-53 | with an address, the location line followed by the maps link for the alarm's coordinates |
| MsgBuilder.Heading | msgbuilder.go:66-77 | the message up to the time line starts with the alert header |
| MsgBuilder.BuildMessage | msgbuilder.go:66-80 | starts with the alert header, is never empty, and ends with the location section |
| MsgBuilder.VinSameAsPlateOmitted | msgbuilder.go:92-94 | a VIN equal to the plate produces the same message as no VIN |
| MsgBuilder.BlankOwnerNoLine | msgbuilder.go:74 | a blank owner produces no owner line: the same message as no owner |
| MsgBuilder.NoCoordinatesNoGeocoder | msgbuilder.go:42-45 | without coordinates the message does not depend on the geocoder and ends with the unknown location |
| MsgBuilder.AlertsDistinct | msgbuilder.go:98-116 | the six alert headers are pairwise different |
| MessageBuilderV1.GetUserDetails | message_builder.go:39-53 | absent fields become ""; the VIN is dropped when it equals the plate |
| MessageBuilderV1.GetAlert | message_builder.go:55-66 | never empty; SOS gives the SOS header, LOWVOT the low-voltage header, REMOVE always the power-cut header; the unknown header exactly for every other type |
| MessageBuilderV1.BuildMessage | message_builder.go:22-32 | starts with the header, is never empty, ends with the alarm-time line |
| MessageBuilderV1.RemoveHeaderIgnoresSubtype | message_builder.go:59-60 | the older REMOVE header is the newer default one and differs from the dismount and light-sensor headers |
| MessageBuilderV1.NewerAddsLocation | message_builder.go:22-32 | for the same person and a REMOVE sub-type other than 1 and 10, the newer message is the older one followed by the location section |
| Users.Body | user.go:45-64 | contains the plate line and the people lines and ends with the alarm-time line |
| Users.GetSOSMessage | user.go:43-49 | the SOS header followed by the body |
| Users.GetRemoveMessage | user.go:51-57 | the power-cut header followed by the body |
| Users.GetLowvotMessage | user.go:59-65 | the low-voltage header followed by the body |
| Users.OwnerLines | user.go:45-48 | one "Usuario y propietario" line when the user is the owner, else separate user and owner lines |
| Users.VinIgnored | user.go:43-65 | no message depends on the VIN |
| Users.HeadersDistinguish | user.go:46-64 | an SOS message does not start with the power-cut header, a power-cut message starts with neither the SOS nor the low-voltage header, and a low-voltage message does not start with the power-cut header |
| Devices.Device.constructor | device.go:17-26 | every field as given |
| Devices.Device.CopyOf | requestgenerator.go:28-30 | a new device with every field of the original (the goroutine's by-value copy) |
| Devices.Device.GenerateURL | device.go:44-75 | the watermark becomes now for every provider; the URL is the one for the window from the old watermark |
| Devices.WindowStart | device.go:46-51 | now - 86400 when the watermark is 0, else the watermark |
| Devices.IopgpsAlarmURL | device.go:36 | starts with the IOPGPS alarm endpoint and IMEI parameter |
| Devices.WhatsGPSAlarmURL | device.go:57-70 | the WhatsGPS endpoint followed by the query |
| Devices.ProviderURL | device.go:54-74 | "" exactly for a provider other than WanWayTech and WhatsGPS |
| Devices.WindowsTile | device.go:47-52 | once the watermark is set, the next window starts where the last one ended |
| Devices.HostNames | device.go:36-39 | the IOPGPS endpoint contains iopgps and the WhatsGPS one whatsgps |
| Devices.ProviderHosts | device.go:54-70 | a WanWayTech URL contains iopgps and a WhatsGPS URL contains whatsgps, so the executor routes them back to their vendor |
| Devices.CleanAndValidateIMEI | device.go:108-118 | succeeds iff every character left after removing spaces is a digit, and then returns that space-free all-digit text |
| Devices.CleanIdempotent | device.go:108-118 | cleaning a cleaned IMEI gives it back |
| Devices.CleanAcceptsEmptyRejectsLetters | device.go:108-118 | "" is accepted; any non-space non-digit character is rejected |
| Devices.GetDeviceByImei | device.go:122-135 | an invalid IMEI fails; a valid one is looked up at the devices URL of the cleaned IMEI |
| Devices.InvalidImeiNoRequest | device.go:125-128 | for an invalid IMEI the result does not depend on the backend: no request is made |
| RequestGenerators.RequestGenerator.constructor | director.go:30 | no next stage |
| RequestGenerators.RequestGenerator.SetNext | requestgenerator.go:49-51 | the next stage is the one given |
| RequestGenerators.RequestGenerator.URLOfCopy | requestgenerator.go:30-36 | the URL of the device at its current watermark, built on a copy |
| RequestGenerators.GeneratedURLs | requestgenerator.go:23-41 | the URL list the stage builds: as many URLs as devices, entry i being device i's URL at the i-th clock reading |
| RequestGenerators.RequestGenerator.Handle | requestgenerator.go:16-47 | a non-device payload fails; otherwise one URL per device, urls[i] built from devices[i], the list being GeneratedURLs of the devices; with no modifies clause, the caller's devices keep their watermarks |
| DeviceControllers.AfterFetch | devicecontroller.go:86-90 | a successful fetch, even an empty one, is the result; a failed one falls back to the last list |
| DeviceControllers.LastSuccess | devicecontroller.go:86-90 | none exactly when every fetch failed |
| DeviceControllers.HeldIsLastSuccess | devicecontroller.go:86-90 | after any run of calls the held list is the last successful fetch, or the initial list if none succeeded |
| DeviceControllers.DeviceController.constructor | director.go:29 | no next stage and no devices |
| DeviceControllers.DeviceController.SetNext | devicecontroller.go:97-99 | the next stage is the one given |
| DeviceControllers.DeviceController.Handle | devicecontroller.go:81-95 | a non-query payload fails and keeps the last list; otherwise the last list becomes the fetch result or stays as it was, and that list is the output |
| RequestExecutors.RouteOf | requestexecutor.go:45-52 | IOPGPS iff the URL contains iopgps; WhatsGPS iff it does not but contains whatsgps |
| RequestExecutors.RequestFor | requestexecutor.go:69-78 | the request is for the URL and carries the access token exactly on the IOPGPS route |
| RequestExecutors.Records | requestexecutor.go:87-116 | a transport error or a non-200 status gives no records; a 200 reply whose body does not decode gives none; a decoded 200 reply gives its records |
| RequestExecutors.ConvertAll | requestexecutor.go:118-123 | one alarm per record, in order, through the pass-through adapter |
| RequestExecutors.ConvertAllWhatsGPS | requestexecutor.go:177-182 | one alarm per record, in order, through the WhatsGPS adapter |
| RequestExecutors.ConvertAllWhatsGPSStep | requestexecutor.go:178-181 | each turn of the append loop adds the next record's alarm |
| RequestExecutors.GatherAppend | requestexecutor.go:43-53 | the output for a list of URLs is the concatenation of each URL's contiguous block |
| RequestExecutors.OneAlarmPerRecord | requestexecutor.go:118-123 | a decoded IOPGPS reply contributes exactly one alarm per record |
| RequestExecutors.UnroutedContributesNothing | requestexecutor.go:49-51 | URLs of neither vendor contribute nothing |
| RequestExecutors.RequestExecutor.constructor | director.go:31 | no next stage |
| RequestExecutors.RequestExecutor.SetNext | requestexecutor.go:185-187 | the next stage is the one given |
| RequestExecutors.RequestExecutor.ProcessIOPGPSURL | requestexecutor.go:63-124 | the alarms so far followed by this URL's contribution |
| RequestExecutors.RequestExecutor.ProcessWHATSGPSURL | requestexecutor.go:126-183 | the alarms so far followed by this URL's contribution |
| RequestExecutors.RequestExecutor.Handle | requestexecutor.go:30-61 | a non-URL payload fails; otherwise the output is every URL's contribution, in URL order |
| DataSavers.SaveOutcomes | datasaver.go:25-43 | one save attempt per alarm, in order, each recording whether the backend stored it |
| DataSavers.SavedCount | datasaver.go:25-43 | the number of alarms of a batch the backend holds after one pass: at most the batch size, and the whole batch exactly when every submission is stored |
| DataSavers.OneFailureIsolated | datasaver.go:33-41 | when the backend rejects only alarm i, only that submission fails and the other |alarms| - 1 are saved: an error on one alarm does not stop the others |
| DataSavers.DataSaver.constructor | director.go:32 | no next stage |
| DataSavers.DataSaver.SetNext | datasaver.go:53-55 | the next stage is the one given |
| DataSavers.DataSaver.Handle | datasaver.go:16-51 | a non-alarm payload fails with no attempt; otherwise one attempt per alarm and the batch passes on unchanged, whatever the outcomes |
| MsgSender.DiscardMessage | msgsender.go:74-80 | true iff the message is empty |
| MsgSender.Addressed | msgsender.go:57 | "whatsapp:" followed by the number |
| MsgSender.Attempts | msgsender.go:53-71 | one attempt per number, in order, from the sandbox number, to that number's address, with the message |
| MsgSender.AttemptsStep | msgsender.go:53-64 | each turn of the send loop adds the next number's attempt, whatever earlier attempts gave |
| MsgSender.Deliveries | msgsender.go:38-72 | nothing is sent for an empty message or when the recipient lookup fails |
| MsgSender.EveryRecipientOnce | msgsender.go:47-64 | the k-th attempt goes to the k-th recipient number, whatever the transport does |
| MsgSender.SendMessage | msgsender.go:38-72 | the attempts made are exactly Deliveries |
| MsgSender.Critical | msgsender.go:90-97 | keeps exactly the alarms with code SOS, LOWVOT or REMOVE |
| MsgSender.CriticalAppend | msgsender.go:90-97 | the filter distributes over concatenation, so order is kept |
| MsgSender.NoticeFor | msgsender.go:109-120 | a failed device lookup sends nothing for that alarm |
| MsgSender.Notices | msgsender.go:102-122 | one notice per kept alarm, in order |
| MsgSender.NoticesStep | msgsender.go:102-122 | each turn of the notify loop adds the next kept alarm's notice |
| MsgSender.BuiltMessagesAreSent | msgsender.go:118-120 | a built message is never discarded |
| MsgSender.MessageSender.constructor | director.go:33 | no next stage |
| MsgSender.MessageSender.SetNext | msgsender.go:132-134 | the next stage is the one given |
| MsgSender.MessageSender.FilterCritical | msgsender.go:90-97 | the filter loop's result is Critical |
| MsgSender.MessageSender.Notify | msgsender.go:104-121 | one alarm's goroutine sends NoticeFor |
| MsgSender.MessageSender.Handle | msgsender.go:82-130 | a non-alarm payload fails and sends nothing; otherwise the output is the critical alarms, not the whole batch, and each of them is notified |
| Phones.PhonesURL | phones.go:44 | the devices endpoint, the IMEI, then /phones/ |
| Phones.NumbersOf | phones.go:73-75 | a user's numbers in order |
| Phones.FlattenLength | phones.go:71-76 | the result length is the sum of every user's number count |
| Phones.FlattenAppend | phones.go:71-76 | flattening distributes over concatenation: users first, each user's numbers in order |
| Phones.FlattenKeepsEveryNumber | phones.go:71-76 | every number of every user is in the result |
| Phones.GetPhoneNumbersFromAPI | phones.go:42-79 | a failed lookup or decode fails; otherwise the flattened numbers |
| Api.Pow2 | api.go:42 | at least 1 |
| Api.Rebuilt | api.go:44-45 | a rebuilt request keeps the access token of the request it replaces |
| Api.StepsFollow | api.go:38-53 | one turn of the retry loop meets its specification: an answer ends it, a timeout waits base·2^i and rebuilds the URL at the next clock reading, any other error stops it |
| Api.RetryLength | api.go:37 | at most maxRetries requests, and when any retry is allowed at least one, the first being the one given |
| Api.RetryDelays | api.go:42-43 | the k-th wait is baseDelay·2^k |
| Api.RetryRequests | api.go:44-45 | every request after the first is for the same IMEI and start time, a fresh end time and the same token |
| Api.RetryTimeouts | api.go:37-60 | every attempt but the last timed out; an answer is the last attempt's; with neither answer nor error, all maxRetries attempts timed out |
| Api.RetryErrorCause | api.go:39-51 | an error comes from the last attempt: a non-timeout failure or an invalid rebuilt URL |
| Api.Iteration | api.go:38-53 | one turn of the loop is the specified step |
| Api.AfterAgain | api.go:37-54 | a retry moves one request and one wait from the rest of the run to what has been done |
| Api.DoRequestWithRetry | api.go:33-61 | the response, error, requests and waits are those of the specified retry run |
| Api.CheckResponse | api.go:84-95 | data exactly for a status below 400 with a non-empty body, and then the body |
| Api.FetchData | api.go:63-100 | returned data comes from 1 to 7 attempts, all but the last timed out, and the last was accepted |
| Api.AllTimeoutsPanic | api.go:56-84 | when every attempt times out, GetAlarmData dereferences a nil response |
| Api.TimeoutPanicExample | api.go:56-84 | a concrete network that always times out reaches that dereference |
| Api.RetryCorrected | api.go:56-60 | exactly one of response and error, and a response is an answer |
| Api.FetchCorrectedNeverPanics | api.go:56-60 | the corrected fetch never dereferences nil, agrees with the original wherever that does not, and reports exhausted retries where it did |
| Api.SaveDetail | api.go:102-135 | no error exactly for a 2xx status |
| Api.FirstSaveError | api.go:149-178 | no error iff every save succeeded; an error reported is one of the save errors |
| Api.ProcessAlarmData | api.go:137-178 | empty data returns nil without decoding; a decode failure is an error; otherwise one upload per detail with every field kept, and an error iff some save failed |
| CronJobs.ToPost | cronjob.go:30-43 | every field value is kept |
| CronJobs.PostRoundTrip | cronjob.go:126 | the conversion is a bijection |
| CronJobs.MessagesFor | cronjob.go:146-153 | one message for a detail whose code is SOS, REMOVE or LOWVOT, none otherwise |
| CronJobs.OneMessagePerCritical | cronjob.go:125-155 | one message per critical detail |
| CronJobs.AllMessagesStep | cronjob.go:125-155 | each turn of the detail loop adds that detail's messages |
| CronJobs.FirstUnsent | cronjob.go:138-142 | the details before it were uploaded and it was not |
| CronJobs.FirstUnsentIs | cronjob.go:138-142 | that index is unique |
| CronJobs.CronJob.constructor | cronjob.go:56-62 | user, start time and interval as given |
| CronJobs.CronJob.GetAlarmData | cronjob.go:64-108 | the window is [currentTime - interval, currentTime]; data is returned iff the request was built and answered below 400 with a body; currentTime moves to now only then |
| CronJobs.CronJob.FoundAfterAll | cronjob.go:146-153 | scanning the three codes finds exactly MessagesFor |
| CronJobs.CronJob.MessagesOf | cronjob.go:146-153 | the code loop produces MessagesFor |
| CronJobs.CronJob.ProcessAlarmData | cronjob.go:110-156 | empty data does nothing; a decode failure ends the process; otherwise messages are sent for the critical details before the first failed upload, which ends the process |
| CronJobs.CronJob.Run | cronjob.go:158-163 | the fetch and then the processing of its data, with the window moved only after an accepted reply |
| Text.NatToDecimal | token.go:108 | at least one digit, all digits, no leading zero |
| Text.DecimalValueOfNatToDecimal | token.go:108 | the rendered digits have the number's value |
| Text.IntToDecimal | token.go:108 | a sign exactly for negatives, digits otherwise |
| Text.ParseInt64 | token.go:98-101 | a success is within int64; the empty text is a syntax error |
| Text.ParseInt64OfIntToDecimal | token.go:98-108 | every int64 rendered in base 10 parses back to itself |
| Text.IntToDecimalInjective | token.go:128 | distinct int64 values render differently |
| Text.Trim | whatsgps.go:49 | the result neither starts nor ends with the cut character |
| Text.TrimWrapped | whatsgps.go:49 | trimming undoes one pair of quotes around a text that has none at its ends |
| Text.RemoveAll | device.go:109 | no occurrence is left, every other character is kept, and the result is no longer than the input |
| Text.RemoveAllCounts | device.go:109 | the multiset of the result is the input's with that character's count set to zero: every other character is kept as often as it occurs |
| Text.RemoveAllAppend | device.go:109 | removal distributes over concatenation, so the kept characters stay in their order |
| TokenCache.Unix | token.go:108 | whole seconds rounded down: the instant lies in that second |
| TokenCache.ReadToken | token.go:94-105 | succeeds iff TIME is a base-10 int64, with the cached token and that second; fails when TIME is unset |
| TokenCache.WithToken | token.go:107-110 | ACCESS_TOKEN and TIME replaced and every other variable untouched |
| TokenCache.ReadAfterWrite | token.go:98-116 | what writeToken stores, in the environment and in .env, is read back as the same token and second |
| TokenCache.RenewedTokenWindow | token.go:42-44 | a token written at an instant is reused until just under 100 minutes later and never from 100 minutes on |
| TokenCache.Environment.constructor | token.go:95-96 | variables and .env as given |
| TokenCache.Environment.WriteToken | token.go:107-120 | both variables set and .env holding exactly the two keys |
| TokenCache.SignedTextInjective | token.go:122-131 | the second hash input fixes the time, so a signature text is bound to its time |
| TokenCache.NewAuthRequest | auth/autheticator.go:35-47 | one clock reading gives the request time and the signed time; the signature is the two-stage MD5 |
| Token.CheckReply | token.go:61-91 | success iff status 200, a decoded body and code 0, and then the access token; a non-200 status or a non-zero code is an error |
| Token.GetAccessToken | token.go:34-92 | a bad TIME fails; a fresh cached token is returned with no request; otherwise the request signs the current second and is posted to the IOPGPS auth URL, and only a success writes the token with that second |
| Auth.SendAuthRequest | auth/autheticator.go:78-95 | only a 200 reply is passed on, a failed POST and any other status are errors, and the response passed on has its body already closed by the deferred Close |
| Auth.SendAuthRequestCorrected | auth/autheticator.go:78-95 | the same checks, with the body passed on still open |
| Auth.ReadBody | auth/autheticator.go:98-101 | a closed body gives a read error; an open one gives its bytes |
| Auth.ParseAuthResponseAsWritten | auth/autheticator.go:97-117 | a closed body fails at the read; otherwise parsed iff it decodes with code 0, and a nil-pointer panic iff the code is non-zero and there is no result field |
| Auth.ParseAuthResponse | auth/autheticator.go:97-117 | the same read and decode; parsed iff code 0; any other code is a rejection, with or without a result text |
| Auth.ClosedBodyNeverParses | auth/autheticator.go:88-98 | no reply gets through sendAuthRequest and parseAuthResponse as written: a 200 reply always fails at reading the closed body |
| Auth.ClosedBodyExample | auth/autheticator.go:88-98 | a 200 reply whose body is {"code":0,"accessToken":"n"}, under a decoder that accepts only those bytes, is lost as written and parsed once the body is read before it is closed |
| Auth.CorrectedReadsBody | auth/autheticator.go:88-117 | with the body read before it is closed, a 200 reply is parsed exactly when it decodes with code 0 |
| Auth.NilResultExample | auth/autheticator.go:113 | with a readable body {"code":1}, under a decoder that accepts only those bytes, the rejection without a result field panics |
| Auth.ParseAuthResponseAgrees | auth/autheticator.go:97-117 | the corrected parser agrees with the original wherever that does not panic |
| Auth.Authenticator.constructor | auth/autheticator.go:26-33 | every field read from the environment |
| Auth.Authenticator.WriteToken | auth/autheticator.go:137-152 | the object keeps the new token and the environment caches it with its second |
| Auth.Authenticator.GetAccessToken | auth/autheticator.go:49-76 | a bad TIME fails; a fresh cached token is returned with no request; otherwise the signed request is posted to the service URL read from MY_API_URL and the call always fails, with the read error for a 200 reply; a success is only ever the cached token, and neither the object nor the environment changes |
| Auth.Authenticator.GetAccessTokenCorrected | auth/autheticator.go:49-76 | with the body read before it is closed: a bad TIME fails; a fresh token is reused; otherwise the signed request is posted to the service URL read from MY_API_URL, and a rejected or failed request changes nothing, a reply without a token returns the token already held, and a new token is written and returned |
| Directors.Successor | director.go:36-39 | each link goes to the stage of the next rank; only MessageSender has none |
| Directors.LinksFollowChainOrder | director.go:28-42 | following the links from DeviceController visits the five stages in chain order |
| Directors.Director.constructor | director.go:22 | no chain |
| Directors.Director.NewStages | director.go:29-39 | five fresh stages, each linked to its successor |
| Directors.Director.BuildChain | director.go:28-42 | five fresh stage objects, each linked to its successor, with DeviceController first |
| Directors.RankIndexesChainOrder | director.go:28-42 | each stage sits in the chain order at its rank |
| Directors.StageOutput | handler.go:3-6 | what each stage's Handle hands on, failing exactly on a payload of the wrong shape: DeviceController the held list updated by the fetch, RequestGenerator the URL list, RequestExecutor the alarms gathered from the URLs, DataSaver its input, MessageSender the critical alarms |
| Directors.DownstreamIgnores | director.go:28-42 | past the DeviceController the chain's result does not depend on the held list, and past the RequestGenerator not on the URL list |
| Directors.QueryDownstream | director.go:28-51 | the whole chain returns, for a query, the critical alarms among those gathered from the URL list, and fails on anything else |
| Directors.Director.RunStage | director.go:46-51 | one stage's Handle: its link is the next stage in chain order; its output is StageOutput of its input (the DeviceController's fetched or held devices, which it keeps; the URLs for the devices; the gathered alarms; the DataSaver's input unchanged; the critical alarms), and it fails on the wrong shape; no other stage changes the DeviceController's list |
| Directors.Director.RunChain | devicecontroller.go:81-95 | a stage's Handle followed by its forwarding to the next stage's Handle: the stages that ran are consecutive in chain order from this one, all of them on success; the result is Downstream of the input, with the URLs of the devices the DeviceController fetched |
| Directors.Director.ProcessRequest | director.go:46-51 | no chain returns the request; otherwise the stages run in chain order until one fails; a non-query request fails at the first stage; a query runs all five stages, leaves the DeviceController holding the fetched devices, and returns the critical alarms among those gathered from the URLs of those devices |
| Directors.AtMostOneInFlight | director.go:71-87 | runs launched equals runs ended plus one while the slot is taken, so at most one run is in flight |
| Directors.Scheduler.constructor | director.go:16-17 | no instance, not started, slot free |
| Directors.Scheduler.GetDirectorInstance | director.go:20-25 | created on the first call, the same instance afterwards |
| Directors.Scheduler.InitiateTrackingAlarms | director.go:57-67 | a second call changes nothing; the first sets the flag and builds the chain |
| Directors.Scheduler.Tick | director.go:72-86 | the tick is recorded; a run is launched exactly when none was in flight; one is in flight afterwards |
| Directors.Scheduler.TrackAlarms | director.go:75-82 | the tracking query runs through a prefix of the chain, all of it on success, and the slot is freed whatever the outcome |
| Apps.ChunksFlatten | app.go:59-66 | the chunks concatenate back to the user list, in order |
| Apps.ChunksSizes | app.go:59-63 | every chunk holds one to nine users |
| Apps.ChunksAt | app.go:59-64 | the chunk at i ends at min(i + 9, n) |
| Apps.App.constructor | app.go:10-15 | no token, the users given |
| Apps.App.RefreshToken | app.go:20-31 | the token getAccessToken returned, "" on error |
| Apps.App.RefreshUsers | app.go:37-51 | a failed fetch restores the list held when Run started; success replaces it |
| Apps.App.ProcessRound | app.go:56-66 | a nil list processes nothing; otherwise the groups handed over are the chunks of nine |
| Apps.RoundCoversUsers | app.go:59-66 | every user is handed over exactly once, in order, in groups of one to nine |

## Left out

- HTTP requests, reading response bodies and JSON encoding and decoding. Each call is an outcome parameter: a transport error or a status and body, plus a decoder that may fail. The IOPGPS 10-second context timeout is one such outcome.
- Goroutines, WaitGroups, semaphores and mutexes. Fan-out loops run sequentially in input order. For `api.go` ProcessAlarmData, the error reported is the first failing save in list order, whereas Go keeps whichever failing goroutine reached the channel first.
- The tickers and endless loops of `director.go` and `app.go`. Ticks and run endings are explicit method calls (Scheduler.Tick, Scheduler.TrackAlarms), and each App loop body is one method call.
- Directors.Scheduler.InitiateTrackingAlarms: in Go the first call never returns, because it ranges over the ticker, and it never releases trackingAlarmsLock. A second call therefore blocks on the lock and never reaches the started-flag check. The model's first call returns after setting up, and a second call returns at once without changing anything.
- Apps.App.ProcessRound: the busy loop that spins while the user list is nil is one round that processes nothing.
- Apps.App.RefreshToken: the token's own loop and its logging are not modelled.
- ProcessUsers and GetUserFromApi are not part of this model. A round returns the groups it would hand over, and a user refresh takes the fetch outcome as a parameter.
- CheckAndSendAlarm, called by `api.go` ProcessAlarmData, is not part of this model. The Api module models only the saves.
- The geocoder (`geocodingreverse.go`) is an oracle from coordinates to an optional address.
- The Twilio client and `messages.go` are not modelled. A delivery attempt is a record, and its success is an oracle. `messages.go`'s hard-coded recipients are not modelled.
- Some foreign computations are parameters:
  - MD5 and hex encoding (RFC 1321);
  - strconv.FormatFloat of coordinates;
  - local-time rendering in America/Guayaquil;
  - url.QueryEscape;
  - time.Now.
- Go's floating-point coordinates are reals, and they are never rendered except through the parameter.
- Devices.CleanAndValidateIMEI accepts ASCII digits only. unicode.IsDigit also accepts other Unicode decimal digits, so the model rejects some IMEIs Go accepts.
- Instants in the token cache are integers of nanoseconds since the Unix epoch. WhatsGPS instants are whole-second UTC calendar dates with years 0000-9999, the only ones the layout can parse. Fractional seconds are not modelled: WhatsGPS.ParseLayout and WhatsGPS.UnmarshalCustomTime reject a fraction after the seconds (for example 2024-01-01 10:00:00.5), which time.Parse accepts for this layout.
- WhatsGPS.MarshalCustomTime compares instants by equality, where Go compares UnixNano values that wrap around in int64. The two agree for every instant with a four-digit year.
- Api.DoRequestWithRetry: time.Duration overflow of base·2^i is not modelled, and neither is math.Pow's float rounding. The retry has no jitter, in the code as in the model.
- Api.Retry is written once over a step function, and Api.Steps is the step `doRequestWithRetry` takes. The lemmas are proved for any step meeting the specification Api.StepSpec.
- RequestExecutors.RequestExecutor.Handle: a failure of http.NewRequest in processIOPGPSURL/processWHATSGPSURL would dereference a nil request. The model treats every URL as a valid request there.
- The device update that RequestGenerator sends after each URL (UpdateDevice) does not affect the result and is not modelled.
- `devicecontroller.go` getDevices is abstracted into one fetch outcome for the query.
- `device_test.go` expects a URL for a device without a provider. The code returns "" for it, and the model follows the code (Devices.ProviderURL).
- The failure of godotenv.Write ends the process through logrus.Fatal. It is not modelled: writeToken always succeeds.
- The cron job's log.Fatalf on a decode or upload error ends the process. It is modelled as the processing stopping with a flag set (CronJobs.CronJob.ProcessAlarmData).
- readToken fails while TIME is unset (TokenCache.ReadToken). As the code stands, a process that starts without TIME never requests a token.
- Auth.Authenticator.GetAccessTokenCorrected uses the corrected parser ParseAuthResponse, not parseAuthResponse as written. Once the body is readable, the parser as written panics on a rejection without a result field; see Findings.
- Auth.ReadBody: reading a closed body is one read error. net/http reports an error for a closed network body; an empty body instead reads as nothing and then fails to decode. Either way the call fails without a token.
- The Authenticate interface (`auth/authenticate.go`) and the token renewal loop (`auth/startauth.go`) are not modelled. `config.go` and `main.go` only set up logging and start the program.

## Findings

| source | as written | input that shows it | evidently intended | confidence | as-written member | corrected member |
|---|---|---|---|---|---|---|
| api.go:45-60 | when every attempt times out, or when maxRetries <= 0, the loop ends with err overwritten by the successful createRequest, so doRequestWithRetry returns no response and no error. GetAlarmData then reads the body of a nil response | a network where every request times out, e.g. IMEI 359339072173798, currentTime 1700000000, interval 60 | after the last timeout, return an error saying the retries ran out | not executed | Api.TimeoutPanicExample | Api.FetchCorrectedNeverPanics |
| auth/autheticator.go:88-98 | sendAuthRequest defers response.Body.Close(), so the body is closed when it returns; parseAuthResponse then reads the closed body and fails, so a stale token is never renewed | TIME="0", ACCESS_TOKEN="t", and a 200 reply whose body is {"code":0,"accessToken":"n"} | close the body only after parseAuthResponse has read it | not executed | Auth.ClosedBodyExample | Auth.CorrectedReadsBody |
| auth/autheticator.go:113 | a non-zero code builds the error text from *Result, which dereferences nil when the reply has no result field; this becomes reachable once the body is read before it is closed (the row above) | with the body readable, a decoded reply with code 1 and no result field | report the rejection whether or not a result text came back | not executed | Auth.NilResultExample | Auth.ParseAuthResponseAgrees |
