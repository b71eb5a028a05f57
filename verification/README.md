# Fix My Flat — a Dafny model of the backend gate, complaint ledger, account routes and list logic

Fix My Flat is an apartment-management application. An apartment registers and receives a join code. Admins and residents sign up under that code and log in by phone number. Residents file complaints, and an admin or the complaint's creator changes a complaint's status. The dashboard components filter, search, count and update lists of tickets, technicians, tenants, neighbours and maintenance payments.

This project models the sequential core of that system as pure Dafny functions over immutable data.

- `Schema` (`schema.dfy`): the three Mongoose schemas as validity predicates over documents whose fields may be absent. Defaults are applied before validation. A `required` string also rejects `""`.
- `Store` (`store.dfy`): the persistent state. It holds one map per collection keyed by id, plus a counter that hands out fresh ids. It defines the store invariant `Inv`: ids are below the counter, apartment codes are unique, and each (phone, apartment) pair has at most one user. `findOne` is modelled as "the first match in id order".
- `Gateway` (`gateway.dfy`): `authenticateUser`. Token verification is a function parameter returning the user id, or `None` when it throws.
- `Complaints` (`complaints.dfy`): the create, list and status-update handlers, over the route's own complaint record. Each also appears as an endpoint with the middleware in front.
- `Accounts` (`accounts.dfy`): apartment registration, both signups, login and validate. `bcrypt` is a parameter (`Crypto`), and so is the generated apartment code. A save succeeds exactly when the document satisfies its schema and the unique code index; otherwise the handler answers 500.
- `AdminForm` (`admin_form.dfy`): the admin registration form's ordered checks and the request it sends.
- `Maintenance`, `TicketBoard`, `TenantTickets`, `Technicians`, `Tenants`, `Neighbors`: the list operations of the dashboard components.
- `Text` and `Seqs`: the JavaScript built-ins these use. `Text` covers ASCII `toLowerCase`, `indexOf`, `includes` and `replace` with a string pattern. `Seqs` covers `filter`, a filter's length and `reduce` with `+`.

## Route and schema disagree

The complaint route and the Complaint schema do not describe the same record. The model keeps the route's logic over the route's own record (`Store.Complaint`). It states the schema separately (`Schema.ValidComplaint`) and does not reconcile the two.

- `backend/routes/complaint.js:9-20` builds `{title, description, priority, createdBy, apartmentCode, status: "Open"}`. `backend/models/Complaint.js:3-27` requires `user`, `apartment` and `type`, and its status enumeration has no `"Open"`. `Complaints.CreatedComplaintFailsSchema` shows that the document the route hands to the schema (`Store.ComplaintDocOf`) is invalid. Mongoose validates at save time, so the real handler would answer 500 to every creation. The model does not apply save-time validation to complaints, so it keeps the route's 201.
- `backend/routes/complaint.js:11` and `:38` read `req.user.apartmentCode`. `backend/models/user.js:3-9` defines no such field, so it is undefined for every user (`Complaints.RequesterOf`). `Complaints.ScopeIgnoresApartment` shows the consequence: every authenticated user lists with the same scope. A complaint created by a user of one apartment is therefore listed for users of every other apartment. `Complaints.List` itself is stated for an arbitrary scope, so its contract says what the route's filter does.
- `backend/routes/complaint.js:59` calls `complaint.createdBy.equals`, but `createdBy` is not a schema path. On a document read back from the store that call would throw for non-admins. The model evaluates the rule on the route's record, where `createdBy` is set.
- The create route sets status `"Open"` and checks neither `type` nor the length of `description`. The model follows the route.

## Model

| member | source | states |
|---|---|---|
| Gateway.ExtractToken | backend/middleware/auth.js:6-10 | The token is the header with the first "Bearer " removed; an absent header or an empty remainder yields no token |
| Gateway.Authenticate | backend/middleware/auth.js:4-24 | Ends in exactly one of next or 401; 401 "Authentication required" without a token, "Invalid token" when verification fails, "User not found" for an unknown id; next is reached iff the token is present, verifies and resolves, and then req.user is exactly the stored user |
| Gateway.NoCredential | backend/middleware/auth.js:6-10 | A missing header and a header that is exactly "Bearer " both give 401 "Authentication required" |
| Gateway.BearerTokenIsVerified | backend/middleware/auth.js:6-13 | For "Bearer t" with non-empty t, exactly t reaches the verifier, and next is reached iff t verifies to a stored user |
| Complaints.RequesterOf | backend/routes/complaint.js:10-11 | The handlers' identity is the authenticated user's id and role; its apartment code is undefined because the user schema has no such field |
| Complaints.Create | backend/routes/complaint.js:7-27 | A created complaint's creator and apartment scope come from the authenticated requester, its status is "Open", title/description/priority come from the body, it is stored under a fresh id, and users and apartments are untouched |
| Complaints.CreateIgnoresForgedFields | backend/routes/complaint.js:9-11 | Body fields naming a creator, scope or status have no effect: bodies agreeing on title, description and priority create the same complaint |
| Complaints.List | backend/routes/complaint.js:35-41 | Lists exactly the stored complaints whose apartmentCode equals the requester's, unchanged: none from another scope, none omitted |
| Complaints.CreatedIsListed | backend/routes/complaint.js:13-39 | A complaint just created is listed for its creator with identical fields |
| Complaints.UpdateStatus | backend/routes/complaint.js:49-69 | Unknown id gives 404 with the store unchanged, checked before authorization; a requester who is neither admin nor creator (CanUpdateStatus) gets 403 with the store unchanged; otherwise only that complaint's status changes and every other complaint, user and apartment is untouched |
| Complaints.NotFoundBeforeForbidden | backend/routes/complaint.js:52-61 | An unknown id gives the same 404 to every requester, authorized or not |
| Complaints.UpdateIdempotent | backend/routes/complaint.js:63 | Applying the same status update twice leaves the same state as applying it once |
| Complaints.PostComplaint | backend/routes/complaint.js:7 | Without successful authentication the store is unchanged and the answer is the middleware's 401; after it, the store and answer are exactly those of Create for the authenticated user; the status code is 201 or 401 |
| Complaints.GetComplaints | backend/routes/complaint.js:35 | Without successful authentication the answer is the middleware's 401; after it, the answer is List for the authenticated user; the status code is 200 or 401 |
| Complaints.PutComplaintStatus | backend/routes/complaint.js:49 | Without successful authentication the store is unchanged and the answer is the middleware's 401; after it, the store and answer are exactly those of UpdateStatus for the authenticated user, so a successful update implies an authenticated admin or creator; the status code is 200, 401, 403 or 404 |
| Complaints.AdminUpdatesAnyComplaint | backend/routes/complaint.js:49-64 | An authenticated admin updating a stored complaint gets it back with the new status, and only that complaint's status changes, whoever created it |
| Complaints.StrangerIsForbidden | backend/routes/complaint.js:57-61 | An authenticated resident who did not create a stored complaint gets 403 "Not authorized" and the store is unchanged |
| Complaints.CreatePreservesInv | backend/routes/complaint.js:13-22 | Creating a complaint keeps the store invariant |
| Complaints.UpdatePreservesInv | backend/routes/complaint.js:63-64 | Updating a status keeps the store invariant |
| Complaints.ScopeIgnoresApartment | backend/routes/complaint.js:37-39 | Because the scope read from req.user is undefined for every user, a complaint created by one authenticated user is listed for any other authenticated user |
| Complaints.CreatedComplaintFailsSchema | backend/routes/complaint.js:13-20 | The document the create route builds violates the Complaint schema, and its status "Open" is outside the status set |
| Schema.WithComplaintDefaults | backend/models/Complaint.js:23-27 | A complaint without a status gets "Pending"; nothing else changes |
| Schema.ValidComplaintFields | backend/models/Complaint.js:3-27 | A valid complaint has user and apartment references, a type among Maintenance/Security/Cleanliness/Noise/Parking/Other, a present description of at most 1000 characters, and a status among Pending/In Progress/Resolved/Rejected or none; and these conditions suffice |
| Schema.DefaultStatusIsPending | backend/models/Complaint.js:26 | A complaint without a status is valid exactly when it is valid with status "Pending" |
| Schema.OpenIsNotAStatus | backend/models/Complaint.js:23-26 | Any document with status "Open" is invalid |
| Schema.WithUserDefaults | backend/models/user.js:7 | A user without a role gets "resident"; nothing else changes |
| Schema.ValidUserFields | backend/models/user.js:3-9 | A valid user has phoneNumber, flatNumber and password present, an apartment reference, and a role that is "admin", "resident" or omitted; and these conditions suffice |
| Store.RoleName | backend/models/user.js:7 | The stored role string is in the schema's role set and is "admin" exactly for admins |
| Store.FindApartmentByCode | backend/routes/auth.js:35 | A found apartment carries the code; when none is found, no stored apartment carries it |
| Store.CodeLookupIsUnique | backend/models/Apartment.js:5 | Under the unique index, looking up a stored apartment's code finds that apartment and no other |
| Schema.ValidApartmentFields | backend/models/Apartment.js:3-6 | An apartment document is valid exactly when its name and code are both present and non-empty |
| Accounts.RegisterApartment | backend/routes/auth.js:9-28 | Succeeds iff name and code are non-empty and no stored apartment has the code; then it stores {name, code} under a fresh id and returns the same code; otherwise 500 with the store unchanged |
| Accounts.RegisterPreservesInv | backend/models/Apartment.js:5 | Registering an apartment keeps codes unique and the store invariant |
| Accounts.DuplicateCodeRejected | backend/models/Apartment.js:5 | Registering a code that is already stored fails with 500 and changes nothing |
| Accounts.FindMember | backend/routes/auth.js:40-43 | A found user has that phone and apartment; when none is found, no stored user has the pair |
| Accounts.Signup | backend/routes/auth.js:31-69 | Unknown code gives 400 "Invalid apartment code", an existing (phone, apartment) pair gives 400 "User already exists in this apartment", both with no user created; success stores one schema-valid user with the hashed password, the endpoint's role and the found apartment, changing nothing else |
| Accounts.SignupAdmin | backend/routes/auth.js:52-58 | signup-admin stores role "admin" whatever the body contains |
| Accounts.SignupResident | backend/routes/auth.js:93-99 | signup-resident stores role "resident" whatever the body contains |
| Accounts.SignupPreservesInv | backend/routes/auth.js:40-60 | Run in sequence, signups keep at most one user per (phoneNumber, apartment) and the rest of the store invariant |
| Accounts.SamePhoneOtherApartment | backend/routes/auth.js:81-101 | A phone number already registered in another apartment can still sign up in this one |
| Accounts.FindByPhone | backend/routes/auth.js:117 | Login's lookup uses the phone alone and finds the earliest registered user with that phone, in any apartment |
| Accounts.Login | backend/routes/auth.js:113-143 | Unknown phone gives 400, a wrong password gives 401, and success iff the password matches and the apartment resolves, returning that user's role string, phone, flat, apartment id, the apartment's code and the display name for the user's role, apartment name and flat |
| Accounts.ValidatePhone | backend/routes/auth.js:146-170 | Unknown phone gives 404; success iff the user's apartment resolves, returning that user's role string, phone, flat, apartment id, the apartment's code and the display name |
| Accounts.ValidateIsLoginWithoutPassword | backend/routes/auth.js:117-170 | Validate's 404 happens exactly when login's 400 does; a successful login implies validate succeeds with the same session; with a matching password the two succeed together, so validate is login without the password check |
| Accounts.DisplayName | backend/routes/auth.js:134-137 | An admin's name is "Admin of " followed by the apartment's name; a resident's is "Resident of Flat " followed by the flat number |
| Accounts.DisplayNameShowsRole | backend/routes/auth.js:134-137 | The name starts with "Admin of " exactly for admins, so the name alone tells an admin from a resident |
| Accounts.SignupThenLogin | backend/routes/auth.js:117-133 | A user who just signed up, with a phone unused before, logs in with the same password and gets the endpoint's role and their flat |
| AdminForm.MatchPhonePattern | fmf/src/components/auth/AdminRegistration.tsx:74 | The scan accepts exactly the phone numbers of the form optional '+' then one or more digits, whitespace, '-', '(' or ')' |
| AdminForm.Submit | fmf/src/components/auth/AdminRegistration.tsx:50-89 | A request is sent iff passwords match, the password has at least 6 characters, the phone at least 10, and the phone matches the pattern; it carries phone as phoneNumber and the other fields unchanged; a mismatch is rejected as "Password mismatch" |
| AdminForm.SubmitReportsFirstFailure | fmf/src/components/auth/AdminRegistration.tsx:53-81 | The rejection title is the title of the first failing check in the order mismatch, password length, phone length, phone pattern |
| AdminForm.PlusOnlyInFront | fmf/src/components/auth/AdminRegistration.tsx:74 | An accepted phone number has no '+' except possibly the first character |
| Maintenance.Visible | fmf/src/components/maintenance/MaintenanceHistory.tsx:77-81 | Admins see every record; others see exactly the records of their own flat, in original order, and nothing when their flat is undefined |
| Maintenance.SubmitRequest | fmf/src/components/maintenance/MaintenanceHistory.tsx:86-106 | An empty description or amount is refused and changes nothing; otherwise one pending, undecided record of the user's flat, carrying the given id and today's date as its submission date, is put in front and the rest is the old list |
| Maintenance.Decide | fmf/src/components/maintenance/MaintenanceHistory.tsx:116-126 | Only records with the matching id change, and only in status, approvedBy ("Admin User") and approvedDate; length and all other records are unchanged |
| Maintenance.DecisionIsFinal | fmf/src/components/maintenance/MaintenanceHistory.tsx:261 | Approve and reject are offered to admins on pending records only (OffersDecision); once decided, a record no longer offers them, and repeating the decision changes nothing |
| Maintenance.SubmittedIsVisibleToItsFlat | fmf/src/components/maintenance/MaintenanceHistory.tsx:96-106 | A resident's new request appears at the top of their own view |
| TicketBoard.UpdateTicketStatus | fmf/src/components/tickets/TicketManagement.tsx:63-68 | Only tickets with the matching id change, and only in status and assignedTo; length and all other tickets are unchanged |
| TicketBoard.Buttons | fmf/src/components/tickets/TicketManagement.tsx:141-168 | A card offers exactly the two statuses different from its current one |
| TicketBoard.Press | fmf/src/components/tickets/TicketManagement.tsx:142-167 | Unassign clears assignedTo, Assign sets it to "Auto-assigned", Mark Cleared keeps the clicked ticket's assignee; only tickets with the clicked id change, and only in status and assignedTo |
| TicketBoard.Tab | fmf/src/components/tickets/TicketManagement.tsx:175-177 | A tab lists exactly the tickets with its status, in order |
| TicketBoard.TabsPartition | fmf/src/components/tickets/TicketManagement.tsx:175-177 | Every ticket is in exactly one tab and the three counts add up to the number of tickets |
| TicketBoard.ClearKeepsAssignee | fmf/src/components/tickets/TicketManagement.tsx:164 | Clearing a ticket from its own card changes only its status |
| TenantTickets.FilteredTickets | fmf/src/components/tickets/TenantTicketList.tsx:113-126 | The result is an order-preserving subsequence holding exactly the tickets the filter keeps: the user's own for "my-tickets", that status for "unassigned" and "in-progress", resolved for "completed", and every ticket, unchanged, for "all" or any other value |
| TenantTickets.CountsMatchLists | fmf/src/components/tickets/TenantTicketList.tsx:188-192 | The count beside each menu option (OptionCount, computed as the menu computes it) equals the length of that option's list |
| TenantTickets.CompletedMeansResolved | fmf/src/components/tickets/TenantTicketList.tsx:115-122 | "completed" keeps a ticket iff it is resolved, and "my-tickets" iff its tenant is the user |
| Technicians.Search | fmf/src/components/technicians/TechnicianManagement.tsx:70-74 | Keeps a technician iff the lowercased term occurs in the lowercased name, specialty or email, in order, with every matching entry kept (as many as match); an empty term keeps everyone |
| Technicians.AvailableCount | fmf/src/components/technicians/TechnicianManagement.tsx:89-90 | The available count is the number of available technicians and never exceeds the total |
| Technicians.ActiveTasksIgnoresSearch | fmf/src/components/technicians/TechnicianManagement.tsx:91 | The active-task total (ActiveTasks, the sum of activeJobs over the whole directory) is the sum over the technicians shown plus the sum over those the search hides |
| Tenants.Search | fmf/src/components/tenants/TenantManagement.tsx:65-69 | Keeps a tenant iff the lowercased term occurs in the lowercased name, apartment or email, in order, with every matching entry kept (as many as match); an empty term keeps everyone |
| Tenants.ActiveCount | fmf/src/components/tenants/TenantManagement.tsx:71-72 | The active count is the number of active tenants and never exceeds the total |
| Tenants.TotalSplitsByStatus | fmf/src/components/tenants/TenantManagement.tsx:73 | The ticket total (TotalActiveTickets, the sum over every tenant) is the active tenants' tickets plus the inactive tenants' tickets |
| Tenants.TotalBoundsEachTenant | fmf/src/components/tenants/TenantManagement.tsx:73 | With non-negative counts, each tenant's open tickets are at most the total |
| Tenants.TicketBadge | fmf/src/components/tenants/TenantManagement.tsx:177-181 | The badge appears iff activeTickets > 0, shows that number, and its text is exactly "Open Ticket", with an 's' appended iff activeTickets > 1 |
| Neighbors.NeighborsOf | fmf/src/components/neighbors/NeighborsList.tsx:27-60 | Every neighbour carries the given apartment code; none has the current user's flat; every other roster entry is kept, in order, as many times as it occurs; with an undefined flat nothing is removed |
| Text.ReplaceFirst | backend/middleware/auth.js:6 | With no occurrence the string is unchanged; otherwise the first occurrence of the pattern, and only it, is replaced |
| Text.Search | fmf/src/components/technicians/TechnicianManagement.tsx:70-74 | The shared directory search keeps, in order, exactly the items one of whose fields contains the term when both are lower-cased, as many as match; an empty term keeps every item that has a field |
| Text.SearchSplitsSum | fmf/src/components/technicians/TechnicianManagement.tsx:70-91 | Any sum over a directory is the sum over the items the search shows plus the sum over those it hides |
| Text.ReplaceLeading | backend/middleware/auth.js:6 | Replacing the first occurrence of a pattern in a string that starts with it removes exactly that prefix |
| Seqs.Filter | fmf/src/components/tickets/TicketManagement.tsx:175 | A filter is an order-preserving subsequence holding exactly the elements that satisfy the predicate, as many as there are |

## Left out

- Token issuing and `jwt.verify`: verification is a parameter (token to optional user id). Expiry, signature and the signing secret are not modelled.
- `bcrypt.hash` and `bcrypt.compare`: a `Crypto` parameter. Login and signup lemmas assume only that a password matches its own hash and that a hash is non-empty. The cost factor is not modelled.
- Random apartment codes (`Math.random().toString(36)`) and document ids: the code is a parameter; ids come from the store's counter.
- Express routing, HTTP and JSON: replies are datatypes carrying the status code and the message or record.
- Storage faults and the catch-all 500 answers they produce are not modelled, except for the save failures described above. The same goes for a complaint id that is not a valid ObjectId, which would throw during casting.
- Save-time validation of complaints: the route's record is stored as built (see "Route and schema disagree").
- Mongoose strict-mode field stripping, and `populate("createdBy", ...)` on the list route: the listing returns the stored complaints without the creator's phone and flat.
- The order of the complaint listing: `Complaint.find` answers an array, the model a map from id to complaint, so the listing states which complaints are returned but not in what order.
- The complaint timestamps `createdAt` and `updatedAt`: dates are not modelled.
- The signup check-then-insert race: handlers are modelled sequentially.
- Body fields that are absent (`undefined`): every body field is a string. The login and validate lookups take the phone as given.
- String lengths: JavaScript counts UTF-16 code units, while the model counts characters. The two differ only for characters outside the Basic Multilingual Plane.
- `toLowerCase` folds ASCII letters only.
- Maintenance amounts (`parseFloat`, `toFixed`) and technician ratings: an amount is kept as its submitted text. Record ids and dates from the clock are parameters.
- The mock data arrays in the components: the lists are inputs to the model.
- React rendering, loading states, `setTimeout`, toasts, navigation, session storage and axios calls.
- The UI-only components (Dashboard, ResidentRegistration, RegisterApartment, CreateTicketForm, TechniciansList, TenantDashboard, ProfilePage, Index, App) hold routing, mock data or network glue, so they are not modelled.
- The category selector of the ticket board has no effect on the lists.
- The submit-request dialog is shown only to non-admins; that is rendering and is not stated.
