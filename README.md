# Medibridge core rules in Dafny

Medibridge is a small telemedicine system. It has a Go (Gin) API with OTP login, JWT
middleware and a drug catalogue, plus three React/Next front ends: a patient app, a clinic
app and a scanning-centre app. This project models the parts of it that are rules rather
than glue, and proves what they promise:

- **Drug catalogue** (`DrugCatalog`, drug_catalog.dfy):
  - the CSV import shared by the startup loader and the admin upload: header-column
    discovery, row normalisation, and the truncate-then-upsert fold into the `drugs` table;
  - the name search: length guard, lower-case substring match, name order, limit of ten.
- **OTP store** (`Otp`, otp.dfy): the phone → (code, expiry) map and the two handlers that
  change it.
- **Access control** (`Middleware`, middleware.dfy; `Router`, router.dfy):
  - the Bearer-header check, claims propagation and role membership;
  - the route table that `main.go` builds, with the OPTIONS short-circuit. Together they
    give one decision function from (method, path, header) to the outcome of a request.
- **Patient login page** (`PatientLogin`): phone normalisation and the two-step OTP state
  machine.
- **Scanning login form** (`ScanningLogin`): the simulated 10-digit check and magic-OTP
  login.
- **Prescription page** (`Prescription`): the drug list edited by index, the payload gate,
  and submit/reset clearing.
- **Dosage editor** (`Dosage`): slot toggling, slot order and labels, timing options, and
  the time offset read with JavaScript `parseInt(...) || 0`.
- **Mock patient search API** (`PatientSearch`).
- **Scanning status table** (`StatusMonitor`) and the **dashboard's report list**
  (`ScanningDashboard`).
- **Clinic route guard** (`AuthGuard`).

Shared modules: `Options` (an `Option` type) and `Text` (string rules):

- Go's `strings.ToLower`, `strings.TrimSpace` and `strings.Split`;
- JavaScript's ASCII `toLowerCase`;
- substring containment;
- decimal printing and reading;
- UTF-8 byte length.

State that the source changes in place is modelled as a class whose methods carry
`modifies`. Examples are the OTP store, the drugs table, and a React component's state
plus `localStorage` and the router's push history. The rest is modelled as functions.
Where a class method has a specification function, its `ensures` ties the new state to
that function, and the lemmas about the function carry the properties. Time, random
draws, database faults, JWT signing and validation, and the outcome of a `fetch` are all
parameters of the operations that use them.

## Model

| member | source | states |
|---|---|---|
| Text.TrimSpace | backend/go-api/handlers/drugs.go:126 | the result neither starts nor ends with Go white space, and is empty exactly when the input is all white space |
| Text.TrimSpaceSlice | backend/go-api/handlers/drugs.go:126 | the trimmed string is a slice of the input with nothing but white space before and after it |
| Text.Split | backend/go-api/handlers/middleware.go:24 | `strings.Split` gives at least one part, and no part holds the separator |
| Text.ReplaceChar | backend/go-api/handlers/drugs.go:189 | `strings.ReplaceAll` of one character keeps the length, puts the new character at every position of the old one and keeps every other character, so none of the old character is left |
| Text.Lower | clinic-app/src/pages/api/patients.ts:30 | `toLowerCase` keeps the length, leaves no ASCII upper-case letter, moves each upper-case letter 32 code points on and keeps every other character |
| Text.GoLowerLowers | backend/go-api/handlers/drugs.go:126 | `strings.ToLower` keeps the length, leaves no ASCII upper-case letter, U+0130 or U+212A, moves each ASCII upper-case letter 32 code points on and keeps every other character |
| Text.GoLowerIdempotent | backend/go-api/handlers/drugs.go:63 | lower-casing twice is lower-casing once |
| Text.ContainsAt | clinic-app/src/pages/api/patients.ts:30 | an occurrence of `sub` at any offset of `s` makes `s` contain `sub` |
| Text.ContainsOffset | clinic-app/src/pages/api/patients.ts:30 | when `s` contains `sub`, there is an offset at which `sub` occurs |
| Text.IndexOf | backend/go-api/handlers/middleware.go:24 | the first position of a character that occurs |
| Text.NatToString | backend/go-api/handlers/otp.go:44 | the decimal form is non-empty, all digits, and starts with `0` only for zero |
| Text.Utf8LengthAtLeast | backend/go-api/handlers/drugs.go:50 | a string has at least as many UTF-8 bytes as characters |
| Text.Utf8Short | backend/go-api/handlers/drugs.go:50 | a string is under two bytes exactly when it is empty or one ASCII character |
| Text.LowerIdempotent | clinic-app/src/pages/api/patients.ts:30 | lower-casing twice is lower-casing once |
| Text.SplitJoin | backend/go-api/handlers/middleware.go:24 | `strings.Split` on a separator loses nothing: joining the parts with the separator gives back the input |
| Text.ContainsTransitive | clinic-app/src/pages/api/patients.ts:28-32 | a substring of a substring is a substring |
| Text.LowerKeepsContains | clinic-app/src/pages/api/patients.ts:30 | if sub occurs in s, then lower(sub) occurs in lower(s) |
| Text.NatToStringValue | backend/go-api/handlers/otp.go:44 | the decimal form of n is all digits and reads back as n |
| Text.NatToStringInjective | scanning-app/src/pages/dashboard.js:34 | distinct numbers print differently |
| Text.LeadingZeros | backend/go-api/handlers/otp.go:44 | zero padding changes neither the digits property nor the value |
| DrugCatalog.LastIndex | backend/go-api/handlers/drugs.go:125-137 | the index of the last header equal to the key, or -1 when there is none |
| DrugCatalog.LastIndexStep | backend/go-api/handlers/drugs.go:125-137 | extending the headers by one changes the last index exactly when the new header matches (a later duplicate overrides) |
| DrugCatalog.FindColumns | backend/go-api/handlers/drugs.go:119-137 | the header loop finds, for each of name/id/type/strength, the last header that trims and lower-cases to it; the name index is -1 exactly when no header is `name` |
| DrugCatalog.ColumnsOf | backend/go-api/handlers/drugs.go:119-137 | each of the four columns is the last header whose trimmed lower-cased text is its key, or -1 when none is |
| DrugCatalog.SlugId | backend/go-api/handlers/drugs.go:184-190 | a synthesised id is `drug-` followed by the slug of the name, as long as the name, with no space in it |
| DrugCatalog.SlugChars | backend/go-api/handlers/drugs.go:189 | position by position, the slug is the name's character lower-cased, a space becoming `-` |
| DrugCatalog.SlugIdCollides | backend/go-api/handlers/drugs.go:189 | names that differ only in case, or in spaces against hyphens, get the same id |
| DrugCatalog.SlugIdIdempotent | backend/go-api/handlers/drugs.go:189 | making an id from an id's slug gives the id back |
| DrugCatalog.NormalizeRow | backend/go-api/handlers/drugs.go:175-200 | a row is skipped exactly when it is too short for the name or the name is blank; otherwise the name is trimmed, a blank id becomes the slug id, the type is `allopathy` only when its column is absent or past the row's end, and the strength defaults to empty |
| DrugCatalog.RowDrug | backend/go-api/handlers/admin.go:142-167 | the admin import's row rule is the startup loader's rule |
| DrugCatalog.Outcomes | backend/go-api/handlers/drugs.go:164-212 | one outcome per record; every upserted drug has a non-empty name |
| DrugCatalog.ApplyUpserts | backend/go-api/handlers/drugs.go:202-211 | the count never exceeds the number of rows; earlier keys stay |
| DrugCatalog.ApplyOneMore | backend/go-api/handlers/drugs.go:202-211 | one more row either leaves the table and count alone or upserts that row under its id and counts it |
| DrugCatalog.UpsertsKeepWellFormed | backend/go-api/handlers/drugs.go:202-211 | upserting rows with non-blank names into a table whose rows sit under their own ids and have non-blank names keeps it so |
| DrugCatalog.LoadedWellFormed | backend/go-api/handlers/drugs.go:164-212 | after an import every row of the table sits under its own id and has a non-blank name |
| DrugCatalog.CountIsSuccesses | backend/go-api/handlers/admin.go:169-178 | the count is the number of successful upserts, not the number of distinct ids |
| DrugCatalog.LastRowWins | backend/go-api/handlers/drugs.go:202-211 | a row that no later row with the same id overwrites is what the table holds for that id |
| DrugCatalog.KeysComeFromRows | backend/go-api/handlers/drugs.go:158-211 | every key of the table was there before the import or comes from an upserted row |
| DrugCatalog.CsvPath | backend/go-api/handlers/drugs.go:92-96 | the path argument when given and non-empty, otherwise `/app/drugs.csv`; never empty |
| DrugCatalog.ShortQuery | backend/go-api/handlers/drugs.go:50 | the guard holds exactly for the empty query and a single ASCII character |
| DrugCatalog.MatchesIgnoresCase | backend/go-api/handlers/drugs.go:58-63 | lower-casing the query or the drug's name does not change whether it matches |
| DrugCatalog.NameLeqTotal | backend/go-api/handlers/drugs.go:59 | the name order compares any two names |
| DrugCatalog.NameLeqTransitive | backend/go-api/handlers/drugs.go:59 | the name order is transitive |
| DrugCatalog.NameLeqAntisymmetric | backend/go-api/handlers/drugs.go:59 | two names each before the other are equal, so the order is a total order |
| DrugCatalog.FirstByName | backend/go-api/handlers/drugs.go:59 | a non-empty set of drugs has a first one by name |
| DrugCatalog.SelectStep | backend/go-api/handlers/drugs.go:55-61 | taking a first-by-name row out of the remaining matches keeps the taken rows distinct, in name order and before every remaining one |
| DrugCatalog.SelectDone | backend/go-api/handlers/drugs.go:55-61 | a selection that has taken ten rows or run out of matches is a search result |
| DrugCatalog.SearchDrugs | backend/go-api/handlers/drugs.go:48-87 | a query under two bytes gives `[]` without querying; a database error gives the failure reply; otherwise at most ten distinct matching drugs of the table in name order, with no matching drug left out before the last one returned, and fewer than ten only when fewer match |
| DrugCatalog.DrugDatabase.UpsertRows | backend/go-api/handlers/drugs.go:164-212 | the row loop leaves the table equal to the upsert fold over the rows, and returns the fold's count |
| DrugCatalog.DrugDatabase.LoadDrugsFromCsv | backend/go-api/handlers/drugs.go:91-216 | a missing or unopenable file, or a header without `name`, is no error and changes nothing; a header read error or a failed CREATE is an error and changes nothing; otherwise the table is cleared (unless TRUNCATE fails, which is only logged) and the rows are upserted |
| DrugCatalog.DrugDatabase.ProcessDrugCsv | backend/go-api/handlers/admin.go:73-182 | the same import returning the count: an error with count 0 when the file cannot be opened, the header cannot be read or CREATE fails; no error with count 0 when no header is `name`; otherwise the fold's count, at most the number of rows |
| DrugCatalog.ImportOutcome | backend/go-api/handlers/admin.go:90-182 | a header without `name` leaves the table as it was and counts 0; otherwise the table exists afterwards and the count is at most the number of rows |
| DrugCatalog.DrugDatabase.UploadDrugCsv | backend/go-api/handlers/admin.go:21-70 | 400 without a file; 500 when the copy fails, and otherwise 500 exactly when the import reports an error, with nothing changed and count 0; otherwise 200 with the table, flag and count the import leaves |
| Otp.FormatCode | backend/go-api/handlers/otp.go:44 | the code is six decimal digits whose value is the draw |
| Otp.FindUser | backend/go-api/handlers/otp.go:95-115 | the user row for the phone and role, and none exactly when no user has that phone and role |
| Otp.OtpService.constructor | backend/go-api/handlers/otp.go:16 | the store starts empty |
| Otp.OtpService.RequestOtp | backend/go-api/handlers/otp.go:19-60 | 400 for a missing field, 500 on a database error, 404 without a user of that role, all with the store unchanged; otherwise the code is issued and replaces the phone's entry with expiry now + 5 minutes |
| Otp.OtpService.VerifyOtp | backend/go-api/handlers/otp.go:63-129 | no entry: 401 with the store unchanged; strictly past expiry: 401 with the entry deleted; wrong code: 401 with the entry kept; right code: the entry is deleted before the lookup, then 500, 401 or the token, role and name |
| Otp.CodeIsSingleUse | backend/go-api/handlers/otp.go:92 | after an accepted verify the phone has no entry, whatever the lookup gave |
| Otp.CodeIgnoresRole | backend/go-api/handlers/otp.go:47-106 | a code requested under one role is consumed by a verify naming another role |
| Middleware.BearerToken | backend/go-api/handlers/middleware.go:24-31 | a token comes back exactly when the header has one space and the part before it lower-cases to `bearer`; the token is the part after the space |
| Middleware.BearerOf | backend/go-api/handlers/middleware.go:24-31 | for a header made of a space-free word, a space and a rest: a token comes back exactly when the rest has no space and the word lower-cases to `bearer`, and the token is the rest |
| Middleware.BearerLowerCase | backend/go-api/handlers/middleware.go:25 | `bearer` followed by a space-free token passes, with that token |
| Middleware.BearerUpperCase | backend/go-api/handlers/middleware.go:25 | `BEARER` followed by a space-free token passes too: the scheme is compared case-insensitively |
| Middleware.BearerNeedsToken | backend/go-api/handlers/middleware.go:24-29 | the bare word `Bearer` fails: the split gives one part |
| Middleware.BearerOneSpace | backend/go-api/handlers/middleware.go:24-29 | a second space after the token, or two spaces before it, fails: the split gives three parts |
| Middleware.BearerOnlyScheme | backend/go-api/handlers/middleware.go:25 | another scheme such as `Basic` fails |
| Middleware.Authenticate | backend/go-api/handlers/middleware.go:13-47 | an empty header, a malformed header and an invalid token each give 401 with their own message; otherwise the request continues with exactly `userID` and `userRole` set from the claims |
| Middleware.RbacVerdict | backend/go-api/handlers/middleware.go:50-78 | 403 when no role is set; the request continues exactly when the role equals, case-sensitively, some allowed role; an empty list denies everyone |
| Middleware.RbacMiddleware | backend/go-api/handlers/middleware.go:59-75 | the flag-and-break loop gives the membership verdict |
| Router.Group | backend/go-api/main.go:90-137 | a group's routes are its endpoints with the group prefix and the group's guard |
| Router.PathSegments | backend/go-api/main.go:61-137 | a path not starting with `/` has no segments; otherwise the segments hold no `/` and joined with `/` give back the path after its leading slash |
| Router.Lookup | backend/go-api/main.go:61-137 | a route found is in the table and matches the method and path, and none is found exactly when no route matches |
| Router.LookupFirst | backend/go-api/main.go:61-137 | when several routes match, the earliest in the table is found |
| Router.Admit | backend/go-api/main.go:98-137 | a public route admits every request; a signed-in route admits exactly a valid Bearer token; a role route admits exactly a valid token whose role is allowed; refusals are 401 or 403 |
| Router.Decide | backend/go-api/main.go:46-137 | OPTIONS gets the 204 preflight before any check; an unknown route is 404; otherwise the request reaches the route's handler exactly when its guard admits it |
| Router.GuardOf | backend/go-api/main.go:61-137 | the guard of a route is fixed by its path prefix: public for `/`, `/v1/status`, `/health` and `/v1/auth`, Patient for `/v1/patient` and `/v1/chatbot`, any role for `/v1/clinic`, Scanning for `/v1/scanning`, Admin or Clinic for `/v1/admin`; and a public route is one of those public shapes |
| Router.RouteOfReached | backend/go-api/main.go:46-137 | a request that reaches a handler was not OPTIONS and matched a route of the table with that handler |
| Router.ProtectedNeedsToken | backend/go-api/main.go:98 | a request reaching a route of two or more segments other than `/v1/status` and `/v1/auth/*` carried a valid Bearer token, and its context holds exactly the token's user id and role |
| Router.PatientOnly | backend/go-api/main.go:101-112 | a known patient or chatbot route is reached exactly with a valid token of role Patient |
| Router.ClinicAnyRole | backend/go-api/main.go:115-124 | a known clinic route is reached exactly with a valid token of any role |
| Router.ScanningOnly | backend/go-api/main.go:127-131 | a known scanning route is reached exactly with a valid token of role Scanning |
| Router.AdminOrClinic | backend/go-api/main.go:134-137 | the drug upload is reached exactly with a valid token of role Admin or Clinic |
| Router.PublicOpen | backend/go-api/main.go:61-95 | a request to `/`, `/health`, `/v1/status` or `/v1/auth/*` is reached, with an empty context, exactly when it is not OPTIONS and some route matches, whatever its header |
| Router.ListenAddress | backend/go-api/main.go:140-145 | `0.0.0.0:` followed by `$PORT`, or by `8080` when it is empty |
| Router.InGroup | backend/go-api/main.go:90-137 | a route in a group has the group's prefix and guard |
| Dosage.FrequencyBySlots | clinic-app/src/components/DosageMatrix.tsx:4-10 | two frequency records are equal exactly when they agree on every slot |
| Dosage.Flip | clinic-app/src/components/DosageMatrix.tsx:20-23 | the toggled slot is negated and the other three are copied |
| Dosage.FlipTwice | clinic-app/src/components/DosageMatrix.tsx:18-25 | toggling the same slot twice restores the record |
| Dosage.FlipCommutes | clinic-app/src/components/DosageMatrix.tsx:18-25 | toggles of two slots commute |
| Dosage.ToggleFrequency | clinic-app/src/components/DosageMatrix.tsx:18-25 | the patch holds only the frequency key, with the slot flipped |
| Dosage.Capitalize | clinic-app/src/components/DosageMatrix.tsx:45 | the first character is upper-cased and the rest kept |
| Dosage.SlotLayout | clinic-app/src/components/DosageMatrix.tsx:34-45 | the slots come in the order morning, afternoon, evening, night, each once, labelled Morning, Afternoon, Evening, Night |
| Dosage.ChooseTiming | clinic-app/src/components/DosageMatrix.tsx:54-63 | the patch holds only the timing relation, one of the four offered strings |
| Dosage.TrimStartJs | clinic-app/src/components/DosageMatrix.tsx:71 | the leading JavaScript white space is dropped and nothing else |
| Dosage.RadixDigit | clinic-app/src/components/DosageMatrix.tsx:71 | a digit's value is below the radix; in base 10 exactly the decimal digits have a value, their own |
| Dosage.DigitRun | clinic-app/src/components/DosageMatrix.tsx:71 | the length of the longest prefix of digits in the radix |
| Dosage.OffsetMinutes | clinic-app/src/components/DosageMatrix.tsx:71 | the parsed integer, or 0 when it is NaN |
| Dosage.ParseIntNaN | clinic-app/src/components/DosageMatrix.tsx:71 | NaN exactly when, after the leading white space and one sign, no decimal digit (or `0x` and a hexadecimal digit) follows; a negative result needs a leading `-` |
| Dosage.OffsetPatch | clinic-app/src/components/DosageMatrix.tsx:71 | the patch holds only the time offset |
| Dosage.RadixValueDecimal | clinic-app/src/components/DosageMatrix.tsx:71 | decimal digits are valued as the decimal reading |
| Dosage.ParseNumeral | clinic-app/src/components/DosageMatrix.tsx:71 | digits followed by a non-digit are read as their value, with the tail ignored |
| Dosage.ParseDecimal | clinic-app/src/components/DosageMatrix.tsx:71 | the decimal form of n followed by a non-digit is read as n, unless it is the hex prefix `0x` |
| Dosage.ParseNegative | clinic-app/src/components/DosageMatrix.tsx:71 | `-` and the decimal form of n is read as -n |
| Dosage.NegatedDecimal | clinic-app/src/components/DosageMatrix.tsx:71 | `-` followed only by decimal digits (no leading zero unless the digit is alone) is read as minus their value |
| Dosage.TrimSpaces | clinic-app/src/components/DosageMatrix.tsx:71 | leading white space before a non-space is dropped |
| Dosage.SpacesSkipped | clinic-app/src/components/DosageMatrix.tsx:71 | leading white space does not change what is read |
| Dosage.NotANumber | clinic-app/src/components/DosageMatrix.tsx:71 | an input that starts with a letter is NaN, so the offset is 0 |
| Dosage.BlankNotANumber | clinic-app/src/components/DosageMatrix.tsx:71 | an empty or all-white-space input is NaN, so the offset is 0 |
| Dosage.BareHexNotANumber | clinic-app/src/components/DosageMatrix.tsx:71 | `0x` or `0X` with no hexadecimal digit after it is NaN, so the offset is 0 |
| Dosage.HexPrefix | clinic-app/src/components/DosageMatrix.tsx:71 | `0x1A` reads as 26 |
| PatientSearch.Filter | clinic-app/src/pages/api/patients.ts:28-32 | the result holds exactly the patients whose lower-cased name or id contains the lower-cased query, in their original order |
| PatientSearch.Handle | clinic-app/src/pages/api/patients.ts:19-38 | 405 exactly for a non-GET request; a missing, empty or repeated `q` gives `[]`; otherwise the filtered list |
| PatientSearch.Narrowing | clinic-app/src/pages/api/patients.ts:28-32 | when q1 occurs in q2, the results for q2 are a subsequence of the results for q1 |
| PatientSearch.FilterKeepsAll | clinic-app/src/pages/api/patients.ts:28-32 | a list whose every patient matches passes the filter whole |
| PatientSearch.IdPrefixMatches | clinic-app/src/pages/api/patients.ts:28-32 | a patient whose id starts with `PAT` matches the query `pat` |
| PatientSearch.EveryIdMatches | clinic-app/src/pages/api/patients.ts:12-17 | the query `pat` lists every mock patient |
| Prescription.NewDrug | clinic-app/src/pages/prescription.tsx:28 | a new entry has no slot taken, `After Food`, offset 0, empty texts and the clock's id |
| Prescription.Apply | clinic-app/src/pages/prescription.tsx:33 | each field the patch holds is taken from it, every other field and the id are kept |
| Prescription.ApplyLaws | clinic-app/src/pages/prescription.tsx:33 | the empty patch changes nothing, and applying a patch twice is applying it once |
| Prescription.ToggleTwiceRestores | clinic-app/src/pages/prescription.tsx:33 | a toggle patch applied twice to an entry restores it |
| Prescription.AddDrug | clinic-app/src/pages/prescription.tsx:25-30 | exactly one new entry is appended and the earlier ones are unchanged |
| Prescription.UpdateDrug | clinic-app/src/pages/prescription.tsx:32-34 | the length is kept, only entry i is overridden by the patch, and an out-of-range i changes nothing |
| Prescription.RemoveDrug | clinic-app/src/pages/prescription.tsx:36-38 | exactly entry i is removed with the rest in order, and an out-of-range i changes nothing |
| Prescription.RemoveUndoesAdd | clinic-app/src/pages/prescription.tsx:25-38 | removing the entry just added restores the list |
| Prescription.BuildPayload | clinic-app/src/pages/prescription.tsx:40-54 | no payload exactly when no patient is selected; otherwise the patient's id and the form's fields unchanged |
| Prescription.PrescriptionForm.constructor | clinic-app/src/pages/prescription.tsx:7-15 | the query, patients, selection, clinic template, vitals, diagnosis, allergies and drugs start empty |
| Prescription.PrescriptionForm.SetQuery | clinic-app/src/pages/prescription.tsx:17-23 | an empty query clears the list without a request; otherwise the query is searched and, when the reply arrives, the list is the search API's result |
| Prescription.PrescriptionForm.SelectPatient | clinic-app/src/pages/prescription.tsx:101 | the clicked patient becomes the selected one, nothing else changes |
| Prescription.PrescriptionForm.AddDrugClicked | clinic-app/src/pages/prescription.tsx:25-30 | the drug list becomes AddDrug of the old one, nothing else changes |
| Prescription.PrescriptionForm.DrugChanged | clinic-app/src/pages/prescription.tsx:32-34 | the drug list becomes UpdateDrug of the old one, nothing else changes |
| Prescription.PrescriptionForm.RemoveClicked | clinic-app/src/pages/prescription.tsx:36-38 | the drug list becomes RemoveDrug of the old one, nothing else changes |
| Prescription.PrescriptionForm.ClearConsultation | clinic-app/src/pages/prescription.tsx:85 | drugs, diagnosis and allergies are emptied; vitals, clinic and patient are kept |
| Prescription.PrescriptionForm.Submit | clinic-app/src/pages/prescription.tsx:56-69 | without a patient nothing is posted; otherwise the payload is posted and, once the reply arrives, drugs, diagnosis and allergies are emptied |
| PatientLogin.DigitsOnly | patient-app/src/pages/index.jsx:15 | the result is all digits and no longer than the input; a digit string is kept as it is |
| PatientLogin.DigitsOnlyKeepsDigits | patient-app/src/pages/index.jsx:15 | the result is a subsequence of the input holding each digit as often as the input does, so only non-digits go and order is kept |
| PatientLogin.DigitsOnlyAfterPlus | patient-app/src/pages/index.jsx:15 | removing non-digits from `+` and digits gives the digits |
| PatientLogin.FormatPhone | patient-app/src/pages/index.jsx:14-18 | the result starts with `+91` and is `+` then digits only: `+` is added when the digits start with 91, `+91` otherwise |
| PatientLogin.FormatPhoneIdempotent | patient-app/src/pages/index.jsx:14-18 | formatting a formatted number changes nothing |
| PatientLogin.FormatPhoneDropsCountryCode | patient-app/src/pages/index.jsx:16 | every ten-digit local number that begins with 91 (9123456789, say) is sent as `+` and the number, without the country code |
| PatientLogin.FormatPhoneFixed | patient-app/src/pages/index.jsx:14-18 | the corrected rule keeps the `+91` prefix and the digits-only form |
| PatientLogin.FormatPhoneFixedForms | patient-app/src/pages/index.jsx:14-18 | under the corrected rule a 10-digit number typed bare, with `91` or with `+91` becomes `+91` and the number, and the corrected rule is idempotent |
| PatientLogin.ErrorOr | patient-app/src/pages/index.jsx:44 | the reply's error or the fallback, so never empty when the fallback is not |
| PatientLogin.LoginPage.RequestOtp | patient-app/src/pages/index.jsx:20-52 | the request carries `formatPhone` of the phone and role Patient; `otpSent` becomes true only on an ok reply; a failed reply or a network error sets its message; loading always ends |
| PatientLogin.LoginPage.VerifyOtp | patient-app/src/pages/index.jsx:54-88 | the request carries `formatPhone` of the phone, the code and role Patient; an ok reply stores the token, role and name and goes to `/dashboard`; otherwise storage and navigation are untouched and the error is set; loading always ends |
| PatientLogin.LoginPage.Submit | patient-app/src/pages/index.jsx:98-137 | nothing changes unless the button is enabled and the visible field is ten digits (phone) or six digits (code); then a sent code is verified, with `/dashboard` pushed and the token stored exactly on an ok reply, and otherwise a code is requested for `formatPhone` of the phone, opening the code step exactly on an ok reply |
| PatientLogin.SubmitLocalNumber91 | patient-app/src/pages/index.jsx:14-30 | typing a ten-digit number that begins with 91 and submitting the phone step requests an OTP for `+` and the number, without the country code |
| PatientLogin.LoginPage.ChangeNumber | patient-app/src/pages/index.jsx:144-148 | `otpSent`, the error and the OTP are reset; the phone is kept |
| PatientLogin.LoginPage.constructor | patient-app/src/pages/index.jsx:8-12 | the phone, OTP and error start empty, with no code sent and nothing loading |
| PatientLogin.LoginPage.EnterPhone | patient-app/src/pages/index.jsx:104 | typing sets the phone and nothing else |
| PatientLogin.LoginPage.EnterOtp | patient-app/src/pages/index.jsx:119 | typing sets the OTP and nothing else |
| ScanningLogin.LoginForm.RequestOtp | scanning-app/src/components/LoginForm.js:16-46 | `otpSent` becomes true exactly for a 10-digit phone, otherwise the validation error is set; loading ends |
| ScanningLogin.LoginForm.VerifyOtp | scanning-app/src/components/LoginForm.js:49-81 | the OTP 123456 stores the demo token under `jwt_token`; any other sets the hint error and stores nothing |
| ScanningLogin.LoginForm.Submit | scanning-app/src/components/LoginForm.js:84-121 | nothing changes unless the button is enabled and the visible field is ten digits (phone) or six digits (code); a submitted phone step always opens the code step with no error, so the phone error is never newly set; a submitted code stores the demo token exactly for 123456 |
| ScanningLogin.LoginForm.ChangeNumber | scanning-app/src/components/LoginForm.js:127 | `otpSent`, the error and the OTP are reset |
| ScanningLogin.LoginForm.constructor | scanning-app/src/components/LoginForm.js:9-13 | the phone, OTP and error start empty, with no code sent and nothing loading |
| ScanningLogin.LoginForm.EnterPhone | scanning-app/src/components/LoginForm.js:92 | typing sets the phone and nothing else |
| ScanningLogin.LoginForm.EnterOtp | scanning-app/src/components/LoginForm.js:106 | typing sets the OTP and nothing else |
| ScanningLogin.DemoLogin | scanning-app/src/components/LoginForm.js:36-80 | a 10-digit phone then the magic OTP logs in with the demo token |
| StatusMonitor.StatusColor | scanning-app/src/components/StatusDashboard.js:11-24 | the four known statuses get their fixed colours and anything else `#333` |
| StatusMonitor.ColorIdentifiesStatus | scanning-app/src/components/StatusDashboard.js:11-24 | two known statuses with the same colour are the same status |
| StatusMonitor.ActionFor | scanning-app/src/components/StatusDashboard.js:110-125 | the Share button exactly for `Ready to Share`; otherwise `Completed` exactly for `Shared`, else `Processing...` |
| StatusMonitor.HandleShare | scanning-app/src/components/StatusDashboard.js:36-60 | the parent callback is called exactly once, with the report id it was given |
| StatusMonitor.Rows | scanning-app/src/components/StatusDashboard.js:88-129 | an empty list renders one placeholder row; otherwise one row per report, in order, with its id, status, colour and action |
| StatusMonitor.ShareClickSharesItsReport | scanning-app/src/components/StatusDashboard.js:36-60 | clicking a row's Share button calls the callback once, with that report's id |
| ScanningDashboard.WithUpload | scanning-app/src/pages/dashboard.js:29-38 | the new report goes first with the old list after it; its id is `rep-00` and the old length + 1, its status `Uploaded`, and its other fields are kept |
| ScanningDashboard.ReportId | scanning-app/src/pages/dashboard.js:34 | the id is `rep-00` followed by digits that read back as the number |
| ScanningDashboard.ReportIdInjective | scanning-app/src/pages/dashboard.js:34 | different list lengths give different ids |
| ScanningDashboard.SeedsNumbered | scanning-app/src/pages/dashboard.js:20-25 | the seeded reports are rep-001, rep-002 and rep-003 |
| ScanningDashboard.UploadNumbered | scanning-app/src/pages/dashboard.js:29-38 | an upload onto a list numbered by distinct numbers keeps it so numbered |
| ScanningDashboard.NumberedDistinct | scanning-app/src/pages/dashboard.js:34 | in such a list no two reports share an id |
| ScanningDashboard.Dashboard.Seed | scanning-app/src/pages/dashboard.js:17-26 | the list becomes the three seeded reports |
| ScanningDashboard.Dashboard.UploadSucceeded | scanning-app/src/pages/dashboard.js:29-38 | the list becomes WithUpload of the old one |
| ScanningDashboard.SeedThenUpload | scanning-app/src/pages/dashboard.js:17-38 | after the seeds and one upload there are four reports, rep-004 first, all ids distinct |
| ScanningDashboard.Dashboard.constructor | scanning-app/src/pages/dashboard.js:12 | the report list starts empty |
| AuthGuard.AppShell.RunGuard | clinic-app/src/pages/_auth.tsx:12-23 | with no token off `/login` it redirects to `/login`; with a token it authenticates; loading ends |
| AuthGuard.AppShell.Navigate | clinic-app/src/pages/_auth.tsx:23 | the guard runs again only when the path changes |
| AuthGuard.AppShell.Logout | clinic-app/src/pages/_auth.tsx:25-28 | storage is cleared and `/login` is pushed |
| AuthGuard.AppShell.Render | clinic-app/src/pages/_auth.tsx:30-76 | loading shows the spinner; `/login` shows the page alone; other pages get the header, with Logout exactly when authenticated |
| AuthGuard.LogoutFromPage | clinic-app/src/pages/_auth.tsx:25-37 | after a logout the storage is empty and the login page renders without the header |
| AuthGuard.AppShell.constructor | clinic-app/src/pages/_auth.tsx:9-10 | the shell starts unauthenticated and loading |

## Left out

- The database is a map (drugs) and a sequence (users). The SQL `LIKE` query is modelled
  as a plain substring match. In the source a `%` or `_` in the user's query is a
  wildcard and a `\` escapes the character after it; here all three are literal
  characters.
- `ORDER BY name` is modelled as code-point order on names (the C collation). Other
  database collations are not modelled.
- Case folding is modelled on ASCII only:
  - Go `strings.ToLower` on ASCII, plus the two non-ASCII runes whose lower case is ASCII;
  - JavaScript `toLowerCase` on ASCII only.
- `encoding/csv` tokenising and quoting are not modelled. Records come already split, and
  any read error, including a row whose width differs from the header's, is one
  `ReadError` value. The import stops at end of file and skips a row that fails to read.
- These are parameters or flags rather than computations:
  - database, filesystem and copy failures;
  - the clock and `rand.Intn`;
  - `GenerateToken` and `ValidateToken` (JWT and AES cryptography);
  - the result of each `fetch`;
  - `Date.now()` and `toISOString()`.
- Log lines, `console` output and `alert` pop-ups are not modelled.
- Gin's routing tree is modelled as a first-match lookup over the table `main.go` builds.
  Trailing-slash redirects, the 405 handling and conflicts between `:id` and literal
  segments are not modelled. The CORS response headers themselves are not modelled; only
  the OPTIONS short-circuit is.
- The handlers behind the routes are names only. Their bodies (clinic.go, patient.go,
  scanning.go, auth.go) are not part of this model.
- React's asynchronous updates are applied atomically:
  - each handler is one method that runs to its end;
  - the `isLoading` window, the one-second timers of the scanning form, and stale closures
    over state are not modelled;
  - `await response.json()` failing is folded into the network-error case.
- The dashboard page passes no `onShareReport` to the status table. The share click is
  modelled against an abstract callback, returned as the list of ids it is called with.
- Report fields are strings. The non-string JSON values of a report (age, dates) are not
  modelled.
- Dosage.ParseInt: the number is an unbounded integer, so the loss of precision of
  JavaScript numbers above 2^53 and the `Infinity` case are not modelled. The browser's
  sanitising of a `type="number"` input is not modelled either.
- Prescription.PrescriptionForm.Submit: the reply arriving is a flag. A rejected `fetch`
  leaves the form as it was.
- Concurrency is not modelled. Each Go handler runs to its end before the next one
  starts. Gin serves requests concurrently, and `otpStore` is a plain map with no lock,
  so concurrent handlers race on it in the source. Otp.CodeIsSingleUse holds only for
  verifies that run one after another.
- The browser's form validation is modelled only as far as it gates a submit: the
  `required` and `pattern` attributes of the visible field and the button's `disabled`
  flag. The validation messages the browser shows are not modelled.

## Findings

| source | as written | input that shows it | evidently intended | confidence | as-written member | corrected member |
|---|---|---|---|---|---|---|
| patient-app/src/pages/index.jsx:14-18 | digits that start with `91` are taken to already carry the country code, so a local ten-digit number beginning with 91 is sent without it | `9123456789` becomes `+9123456789` | `+919123456789`, the country code added to every ten-digit local number | high (not executed) | PatientLogin.FormatPhoneDropsCountryCode | PatientLogin.FormatPhoneFixedForms |
