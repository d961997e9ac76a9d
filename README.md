# grainsync front end: the form state machines

This project models the forms of the grainsync front end, a React application. Each form is a small state machine. The forms are:

- **Add Employee.** A static department → designation catalog narrows the designation selector. The exact designations "Driver", "Accountant" and "Supervisor" reveal one extra field. Submitting creates the employee, then at most one Driver, Accountant or Supervisor record that carries the new `employee_id`.
- **Update Employee.** The stored employee is loaded into the form. A department change resets the designation. An effect recomputes the designations on offer and keeps the previous list when no department matches. Submitting sends the whole form in one PUT.
- **Register User.** An admin-only screen. It checks the username's availability as it is typed, then runs an ordered chain of password and username checks before the one registration request.
- **Manage Users.** Deletion is refused for the superuser `h_malik` and for the logged-in user. Make Admin is disabled for admins. Each action leaves a message.
- **Customer Management.** One form serves both add mode and edit mode. Edit, Add New, Cancel and a successful save show and hide it. Submitting issues a PUT or a POST.
- **Suppliers.** An add appends the server's record to the list. A delete filters the list by id. Neither change happens unless the server accepted it.

The model has one module per screen, plus four shared modules:

- `Common`: optional values, the outcome of an HTTP call, and the effects a handler makes visible (requests, alerts, navigations).
- `JsText`: the JavaScript string built-ins the screens use, namely `trim`, `toLowerCase`, `parseInt`, `length` and the decimal rendering of numbers.
- `Designations`: the catalog. AddEmployee.jsx and UpdateEmployee.jsx each declare an identical copy; the model declares it once.
- `EmployeeRecords`: what the two employee forms share.

Each screen is modelled at two levels:

- **Pure functions.** A state datatype and one function per handler give the new state and the effects the handler produces, in order. The lemmas about these functions state the properties.
- **A class.** Its fields mirror the component's `useState` variables, and a ghost log `effects` records what it made visible outside. There is one method per handler, and its `ensures` ties the new fields and the new log entries to the function.

The outside world is passed in as parameters:

- The outcome of each awaited HTTP call is a `Response` parameter: the returned data, or a failure with the server's error text when there is one.
- The answer to `window.confirm` is a `bool`.
- The values read from `localStorage` are `Option<string>`.
- Refetches that a handler starts without awaiting (`fetchUsers()`, `fetchCustomers()`) are modelled as completing within the handler, with their own `reload` response.
- Paths are relative to the configured backend URL. Request bodies are datatypes whose fields are the camelCase of the JSON keys.

Two behaviours of the code a reader might not expect:

- A non-special designation does not discard the special-field values. They stay in the form, and only the value of the chosen subtype is ever sent.
- `showSpecialFields` is not reset by a department change. It is the cleared designation that hides the field.

## Model

| member | source | states |
|---|---|---|
| `Designations.DesignationsOf` | src/components/HR/AddEmployee.jsx:72-79 | a catalog lookup succeeds exactly for the six catalog departments and gives their list (of at least two designations) |
| `Designations.SubtypeOf` | src/components/HR/AddEmployee.jsx:121-136 | a designation selects a subtype only by exact equality with its name, and no subtype otherwise |
| `Designations.SubtypeOfSpecialName` | src/components/HR/AddEmployee.jsx:87-91 | each of "Driver", "Accountant", "Supervisor" selects its own subtype |
| `Designations.CatalogDepartments` | src/components/HR/AddEmployee.jsx:6-13 | the catalog has exactly the six departments HR, Warehouse, Production, Finance, Sales, Logistics |
| `Designations.CatalogDisjoint` | src/components/HR/AddEmployee.jsx:6-13 | no designation is listed under two departments |
| `Designations.SpecialNameAtHome` | src/components/HR/AddEmployee.jsx:6-13 | "Driver" is listed only under Logistics, "Accountant" only under Finance, "Supervisor" only under Production |
| `Designations.LookAlikesSelectNothing` | src/components/HR/AddEmployee.jsx:87-91 | "Delivery Supervisor", "Inventory Supervisor" and "Attendance Supervisor" select no subtype |
| `Designations.CatalogSubtypes` | src/components/HR/AddEmployee.jsx:6-13 | a designation picked from a department's list selects a subtype only in that subtype's home department |
| `JsText.TrimStart` | src/components/User/RegisterEmployeeUser.jsx:36 | the result is a suffix of the input, the dropped prefix is all whitespace, and the result does not start with whitespace |
| `JsText.TrimEnd` | src/components/User/RegisterEmployeeUser.jsx:36 | the result is a prefix of the input, the dropped suffix is all whitespace, and the result does not end with whitespace |
| `JsText.TrimEmptyIffBlank` | src/components/User/RegisterEmployeeUser.jsx:36 | `s.trim().length > 0` holds exactly when `s` has a character that is not whitespace |
| `JsText.Utf16Length` | src/components/User/RegisterEmployeeUser.jsx:57 | `length` counts UTF-16 code units: at least the number of characters and at most twice it |
| `JsText.Utf16LengthOfBmp` | src/components/User/RegisterEmployeeUser.jsx:57 | for text inside the Basic Multilingual Plane `length` is the number of characters |
| `JsText.ToLower` | src/components/HR/AddEmployee.jsx:109 | `toLowerCase` maps each character in place to its lower-case form (an upper-case letter to its lower-case letter, anything else to itself), so no upper-case letter is left |
| `JsText.ToLowerKeepsLower` | src/components/HR/AddEmployee.jsx:109 | a gender with no upper-case letter (the selector's "male"/"female") is sent unchanged |
| `JsText.ToLowerIdempotent` | src/components/HR/AddEmployee.jsx:109 | lower-casing twice is lower-casing once |
| `JsText.ParseInt` | src/components/HR/AddEmployee.jsx:58-63 | `parseInt` of a blank string, "" included, is `NaN`; what it reads from digits is stated by `DigitPrefix`, `ParseIntOfIntToString` and `ParseIntOfNonNumbers` |
| `JsText.DigitPrefix` | src/components/HR/AddEmployee.jsx:58 | `parseInt` reads the longest prefix of digits of the radix and stops at the first non-digit |
| `JsText.NatToString` | src/components/User/RemoveUser.jsx:30 | the decimal rendering of a number is a non-empty string of decimal digits with no leading zero |
| `JsText.ParseIntOfIntToString` | src/components/HR/AddEmployee.jsx:58-63 | `parseInt(String(n))` is `n` for every integer `n` |
| `JsText.ParseIntOfNonNumbers` | src/components/HR/AddEmployee.jsx:111 | `parseInt("")` and `parseInt("NaN")` are both `NaN` |
| `EmployeeRecords.ParseDeptValue` | src/components/HR/AddEmployee.jsx:58 | the department selector never stores the empty string again: it stores a number or `NaN` |
| `EmployeeRecords.ParseOptionValue` | src/components/HR/AddEmployee.jsx:300-304 | choosing a department's option stores exactly that department's id |
| `EmployeeRecords.ReparsedDeptIdOfValue` | src/components/HR/AddEmployee.jsx:111 | parsing the stored department value again gives the number it holds, and `NaN` for "" and for `NaN` |
| `EmployeeRecords.FindDept` | src/components/HR/AddEmployee.jsx:63 | `find` returns the first listed department with the sought id (none before it has that id), and nothing exactly when no department has it (`NaN` matches none) |
| `EmployeeRecords.FindDeptById` | src/components/HR/AddEmployee.jsx:63 | with unique ids, looking a department up by its own id finds that department |
| `EmployeeRecords.EmployeeFields.Put` | src/components/HR/AddEmployee.jsx:92-94 | `{ ...formData, [name]: value }` sets the named field and leaves every other field and the department |
| `EmployeeRecords.SelectDepartment` | src/components/HR/UpdateEmployee.jsx:75-80 | a department change stores `parseInt(value)`, clears the designation and keeps every other field |
| `AddEmployee.Draft.PutSpecial` | src/components/HR/AddEmployee.jsx:92-94 | typing in a special input sets that subtype's value alone and leaves the base fields |
| `AddEmployee.DeptChangeKeepsOtherFields` | src/components/HR/AddEmployee.jsx:53-60 | a department change stores the parsed id and resets the designation to ""; every other base field, the three special values and the special-field flag are unchanged |
| `AddEmployee.DeptChangeDesignations` | src/components/HR/AddEmployee.jsx:62-83 | after a department change the offer is the matched department's catalog entry, and empty when no department has the id or its name is not in the catalog |
| `AddEmployee.ChoosingDepartment` | src/components/HR/AddEmployee.jsx:53-83 | choosing a department's option stores its id and offers exactly its catalog entry |
| `AddEmployee.ChoosingNoDepartment` | src/components/HR/AddEmployee.jsx:80-83 | choosing an option whose value `parseInt` reads as `NaN` (as it reads "Select Department"'s value "") stores `NaN` and offers nothing |
| `AddEmployee.DesignationSetsFlag` | src/components/HR/AddEmployee.jsx:84-91 | choosing a designation stores it and sets the special-field flag exactly for "Driver", "Accountant" and "Supervisor" |
| `AddEmployee.ChangePreservesConsistent` | src/components/HR/AddEmployee.jsx:49-95 | every change keeps the invariant that a special designation has its field shown |
| `AddEmployee.RenderedFieldIsSubmittedField` | src/components/HR/AddEmployee.jsx:150-205 | in a reachable state the special field on screen is exactly the subtype whose value a submit sends |
| `AddEmployee.NoSpecialFieldAfterDeptChange` | src/components/HR/AddEmployee.jsx:150-153 | right after a department change no special field is rendered |
| `AddEmployee.EmployeePayloadOf` | src/components/HR/AddEmployee.jsx:101-115 | the payload has `absences` 0, `leaves` 21 and a gender of the same length with no upper-case letter |
| `AddEmployee.EmployeePayloadCopies` | src/components/HR/AddEmployee.jsx:101-115 | the payload copies the base fields, sends `parseInt` of the stored department value, which is the chosen id and `NaN` when none was chosen, and leaves a lower-case gender as it is |
| `AddEmployee.SubmitRequests` | src/components/HR/AddEmployee.jsx:117-136 | the employee create is first; a subtype create follows only after it succeeded and only for an exactly special designation, to that subtype's endpoint, with the returned `employee_id` and only that subtype's value |
| `AddEmployee.ErrorTextIsNotSuccess` | src/components/HR/AddEmployee.jsx:138-146 | no error alert reads as the success alert |
| `AddEmployee.SubmitSucceeds` | src/components/HR/AddEmployee.jsx:138-139 | when every issued request succeeded the submit ends with the success alert and then the navigation to `/hr/employees` |
| `AddEmployee.SubmitFails` | src/components/HR/AddEmployee.jsx:140-147 | when a create fails the submit ends with an error alert, never shows the success alert and never navigates |
| `AddEmployee.SubmitOnlyPosts` | src/components/HR/AddEmployee.jsx:117-136 | every request of a submit is a POST, so nothing created before a failure is rolled back |
| `AddEmployee.LogisticsScenario` | src/components/HR/AddEmployee.jsx:53-83 | choosing Logistics stores its id and offers exactly "Driver", "Delivery Supervisor", "Vehicle Maintenance Coordinator" |
| `AddEmployee.DriverScenario` | src/components/HR/AddEmployee.jsx:84-136 | "Driver" shows the license field, and submit posts the employee then a driver record with the returned id and the entered license number |
| `AddEmployee.InventorySupervisorScenario` | src/components/HR/AddEmployee.jsx:84-136 | "Inventory Supervisor" shows no special field and a submit issues the employee create alone |
| `AddEmployee.AddEmployeeForm.constructor` | src/components/HR/AddEmployee.jsx:17-35 | the initial state: blank fields, gender "male", no department, nothing offered, flag off |
| `AddEmployee.AddEmployeeForm.LoadDepartments` | src/components/HR/AddEmployee.jsx:37-47 | the mount fetch stores the departments on success and changes nothing on failure |
| `AddEmployee.AddEmployeeForm.HandleChange` | src/components/HR/AddEmployee.jsx:49-95 | `handleChange` updates the fields as the transition function says and keeps the consistency invariant |
| `AddEmployee.AddEmployeeForm.HandleSubmit` | src/components/HR/AddEmployee.jsx:97-148 | `handleSubmit` logs exactly the submit's requests, alerts and navigation |
| `UpdateEmployee.LoadCopiesFields` | src/components/HR/UpdateEmployee.jsx:36-49 | the load copies every fetched field, keeps a non-zero department id and stores "" for no department and for the falsy id 0 |
| `UpdateEmployee.LoadedDeptIdReparsed` | src/components/HR/UpdateEmployee.jsx:48 | the recompute effect reads back the loaded department id, and `NaN` for no department or id 0 |
| `UpdateEmployee.RecomputedIdempotent` | src/components/HR/UpdateEmployee.jsx:65-71 | running the recompute effect twice is running it once |
| `UpdateEmployee.SettleSettles` | src/components/HR/UpdateEmployee.jsx:65-71 | after the effect has run it has nothing left to change, and it touches only the offered designations |
| `UpdateEmployee.InitialScreenSettled` | src/components/HR/UpdateEmployee.jsx:19-32 | the initial screen needs no recompute and has no department |
| `UpdateEmployee.DeptChangeKeepsOtherFields` | src/components/HR/UpdateEmployee.jsx:75-80 | a department change stores the parsed id, clears the designation and keeps every other field |
| `UpdateEmployee.FieldEditChangesOnlyThatField` | src/components/HR/UpdateEmployee.jsx:81-83 | any other edit, the designation included, changes only its own field; the department and the offered designations stay |
| `UpdateEmployee.ChoosingDepartmentOffersItsDesignations` | src/components/HR/UpdateEmployee.jsx:65-70 | choosing a department's option offers exactly its catalog entry |
| `UpdateEmployee.ChoosingNoDepartmentKeepsDesignations` | src/components/HR/UpdateEmployee.jsx:66-70 | choosing an option whose value `parseInt` reads as `NaN` (as it reads "Select Department"'s value "") stores `NaN` and keeps the previous offer |
| `UpdateEmployee.RecomputedMatches` | src/components/HR/UpdateEmployee.jsx:65-70 | with no matching department the previous list is kept; with a matching one its catalog entry replaces the list |
| `UpdateEmployee.ChangePreservesSettled` | src/components/HR/UpdateEmployee.jsx:65-84 | every edit followed by the effect leaves the screen settled |
| `UpdateEmployee.LoadSucceeds` | src/components/HR/UpdateEmployee.jsx:36-50 | a successful load copies the employee in, sets the corrected gate's `loaded` flag (the component as written has no such flag and gates on `first_name`, see Findings) and issues the one GET |
| `UpdateEmployee.LoadFails` | src/components/HR/UpdateEmployee.jsx:51-54 | a failed load alerts "Failed to fetch employee data." and changes nothing |
| `UpdateEmployee.DepartmentsLoadedSettled` | src/components/HR/UpdateEmployee.jsx:57-61 | the departments load stores the list on success, keeps the form and leaves the screen settled |
| `UpdateEmployee.SubmitSendsFormOnce` | src/components/HR/UpdateEmployee.jsx:86-97 | one PUT carries the form unchanged; success alerts and navigates, failure alerts "Failed to update employee." only |
| `UpdateEmployee.ClearingFirstNameShowsPlaceholder` | src/components/HR/UpdateEmployee.jsx:99 | as written, clearing the first-name input replaces the form by the loading placeholder |
| `UpdateEmployee.UnnamedEmployeeNeverShown` | src/components/HR/UpdateEmployee.jsx:99 | as written, an employee stored with an empty first name is never shown for editing |
| `UpdateEmployee.LoadingGateCorrected` | src/components/HR/UpdateEmployee.jsx:99 | the corrected gate shows the form exactly once a load has succeeded, and no edit or departments load hides it |
| `UpdateEmployee.UpdateEmployeeForm.constructor` | src/components/HR/UpdateEmployee.jsx:15-32 | the initial state for the route's `employee_id` |
| `UpdateEmployee.UpdateEmployeeForm.Recompute` | src/components/HR/UpdateEmployee.jsx:65-71 | the effect overwrites the offer only when a department matches |
| `UpdateEmployee.UpdateEmployeeForm.LoadEmployee` | src/components/HR/UpdateEmployee.jsx:34-54 | the employee load, then the effect, as the load function says |
| `UpdateEmployee.UpdateEmployeeForm.LoadDepartments` | src/components/HR/UpdateEmployee.jsx:56-61 | the departments load, then the effect |
| `UpdateEmployee.UpdateEmployeeForm.HandleChange` | src/components/HR/UpdateEmployee.jsx:73-84 | `handleChange`, then the effect, keeping the screen settled |
| `UpdateEmployee.UpdateEmployeeForm.HandleSubmit` | src/components/HR/UpdateEmployee.jsx:86-97 | `handleSubmit` logs the PUT and its alert and navigation |
| `RegisterEmployeeUser.RoleGateAdminOnly` | src/components/User/RegisterEmployeeUser.jsx:17-23 | the role gate navigates to "/" exactly when the stored role is not "admin", and the gate itself sends nothing; the mount load of unregistered employees does not depend on the role |
| `RegisterEmployeeUser.CandidatesLoadedOutcome` | src/components/User/RegisterEmployeeUser.jsx:25-32 | the unregistered employees are stored on success; a failure alerts "Failed to load employee data." and keeps the list |
| `RegisterEmployeeUser.UsernameCheckOutcome` | src/components/User/RegisterEmployeeUser.jsx:35-51 | the check is sent with the username as typed exactly when it is not blank; `true` sets "Username is already taken.", another answer clears the error, a failure keeps it |
| `RegisterEmployeeUser.BlankUsernameKeepsError` | src/components/User/RegisterEmployeeUser.jsx:36 | a blank username sends nothing and does not clear an earlier "taken" error |
| `RegisterEmployeeUser.AcceptedIff` | src/components/User/RegisterEmployeeUser.jsx:53-69 | registration goes ahead exactly when the password has at least 8 code units, matches the confirmation and no username error is set |
| `RegisterEmployeeUser.LengthCountsCodeUnits` | src/components/User/RegisterEmployeeUser.jsx:57 | illustration of the code-unit `length` used by the check: four emoji pass it and four letters do not |
| `RegisterEmployeeUser.RegisterTouchesOnlyPasswordError` | src/components/User/RegisterEmployeeUser.jsx:53-82 | registering changes no state but `passwordError` |
| `RegisterEmployeeUser.ShortPasswordRejectedFirst` | src/components/User/RegisterEmployeeUser.jsx:57-59 | a short password sets "Password must be at least 8 characters." whatever else holds, and nothing is sent |
| `RegisterEmployeeUser.MismatchAfterLength` | src/components/User/RegisterEmployeeUser.jsx:60-67 | a long enough password that differs from the confirmation sets "Passwords do not match." and nothing is sent |
| `RegisterEmployeeUser.UsernameErrorBlocksSilently` | src/components/User/RegisterEmployeeUser.jsx:69 | a username error blocks the registration with no request and no message but the cleared password error |
| `RegisterEmployeeUser.OnlyAcceptedRegisters` | src/components/User/RegisterEmployeeUser.jsx:71-81 | exactly one POST is sent exactly when every check passes, and the screen moves to `/remove-user` exactly when it succeeds |
| `RegisterEmployeeUser.RegistrationCarriesForm` | src/components/User/RegisterEmployeeUser.jsx:72-76 | the registration carries the selected employee, the username and the password, and never the confirmation |
| `RegisterEmployeeUser.RegisterForm.constructor` | src/components/User/RegisterEmployeeUser.jsx:5-23 | the empty form, and the role gate's effect |
| `RegisterEmployeeUser.RegisterForm.LoadEmployees` | src/components/User/RegisterEmployeeUser.jsx:25-32 | the unregistered-employee load as the load function says |
| `RegisterEmployeeUser.RegisterForm.SelectEmployee` | src/components/User/RegisterEmployeeUser.jsx:101 | selecting an employee sets the selection alone |
| `RegisterEmployeeUser.RegisterForm.ChangeUsername` | src/components/User/RegisterEmployeeUser.jsx:35-51 | a new username runs the availability check; an unchanged one runs nothing |
| `RegisterEmployeeUser.RegisterForm.ChangePassword` | src/components/User/RegisterEmployeeUser.jsx:131 | typing a password sets it alone |
| `RegisterEmployeeUser.RegisterForm.ChangeConfirmPassword` | src/components/User/RegisterEmployeeUser.jsx:143 | typing the confirmation sets it alone |
| `RegisterEmployeeUser.RegisterForm.HandleRegister` | src/components/User/RegisterEmployeeUser.jsx:53-82 | the early returns in order, then the registration, as the register function says |
| `RemoveUser.ButtonsFollowRules` | src/components/User/RemoveUser.jsx:83-112 | Delete is disabled and reads "Protected" exactly for `h_malik` and the logged-in user; Make Admin is disabled and reads "Already Admin" exactly for admins |
| `RemoveUser.FetchOutcome` | src/components/User/RemoveUser.jsx:16-24 | a load replaces the list; a failed load sets "Failed to load users." and keeps the list |
| `RemoveUser.DeclinedDeleteChangesNothing` | src/components/User/RemoveUser.jsx:27 | declining the confirmation sends nothing and keeps list and message |
| `RemoveUser.DeleteOutcome` | src/components/User/RemoveUser.jsx:26-36 | a confirmed delete sends the DELETE; success sets "User with ID <id> deleted." and refetches, failure sets "Failed to delete user." and does not refetch |
| `RemoveUser.PromoteOutcome` | src/components/User/RemoveUser.jsx:38-47 | success sets "User with ID <id> promoted to admin." and refetches, failure sets "Failed to promote user." |
| `RemoveUser.ProtectedNeverDeleted` | src/components/User/RemoveUser.jsx:83-101 | no click deletes a protected user |
| `RemoveUser.UnprotectedDeletedOnConfirm` | src/components/User/RemoveUser.jsx:91-101 | a confirmed click on another user's Delete sends that user's DELETE first |
| `RemoveUser.AdminNeverPromoted` | src/components/User/RemoveUser.jsx:102-112 | no click promotes a user who is already an admin |
| `RemoveUser.DeletedTextNamesUser` | src/components/User/RemoveUser.jsx:30 | illustration that the message identifies the user: different user ids give different delete messages |
| `RemoveUser.PromotedTextNamesUser` | src/components/User/RemoveUser.jsx:41 | illustration that the message identifies the user: different user ids give different promotion messages |
| `RemoveUser.UserManager.constructor` | src/components/User/RemoveUser.jsx:7-10 | no users and no message, for the logged-in username |
| `RemoveUser.UserManager.FetchUsers` | src/components/User/RemoveUser.jsx:16-24 | `fetchUsers` as the fetch function says |
| `RemoveUser.UserManager.HandleDelete` | src/components/User/RemoveUser.jsx:26-36 | `handleDelete` as the delete function says |
| `RemoveUser.UserManager.HandleMakeAdmin` | src/components/User/RemoveUser.jsx:38-47 | `handleMakeAdmin` as the promotion function says |
| `RemoveUser.UserManager.ClickDelete` | src/components/User/RemoveUser.jsx:91-101 | a click on Delete reaches `handleDelete` only when the button is enabled |
| `RemoveUser.UserManager.ClickMakeAdmin` | src/components/User/RemoveUser.jsx:102-112 | a click on Make Admin reaches `handleMakeAdmin` only when the button is enabled |
| `CustomerPage.CustomerDraft.Put` | src/components/SalesandDistribution/CustomerPage.jsx:34-36 | an input sets its own field and leaves the others and the customer id |
| `CustomerPage.ChangeOnlyThatField` | src/components/SalesandDistribution/CustomerPage.jsx:34-36 | `handleChange` changes the named field of the form and nothing else |
| `CustomerPage.EditLoadsCustomer` | src/components/SalesandDistribution/CustomerPage.jsx:55-60 | Edit loads the customer into the form, enters edit mode with its id and shows the form |
| `CustomerPage.AddNewShowsEmptyForm` | src/components/SalesandDistribution/CustomerPage.jsx:97-101 | Add New shows an empty form in add mode |
| `CustomerPage.CancelOnlyHides` | src/components/SalesandDistribution/CustomerPage.jsx:219 | Cancel hides the form and leaves mode, id and form data |
| `CustomerPage.SubmitIssuesOneWrite` | src/components/SalesandDistribution/CustomerPage.jsx:38-45 | a submit issues one write, a PUT to `/<editId>` in edit mode and a POST otherwise, carrying the form, then a refetch on success |
| `CustomerPage.SubmitOutcome` | src/components/SalesandDistribution/CustomerPage.jsx:46-52 | a successful write empties and hides the form and leaves edit mode; a failed one changes nothing |
| `CustomerPage.PutPathNamesCustomer` | src/components/SalesandDistribution/CustomerPage.jsx:42 | the PUT path after Edit reads back as the edited customer's id |
| `CustomerPage.EditThenSave` | src/components/SalesandDistribution/CustomerPage.jsx:38-60 | editing a customer and saving sends the edited record to that customer's PUT, then refetches |
| `CustomerPage.CancelledEditThenAddPosts` | src/components/SalesandDistribution/CustomerPage.jsx:38-101 | after a cancelled edit, Add New and save posts an empty new customer instead of updating the old one |
| `CustomerPage.DeleteOutcome` | src/components/SalesandDistribution/CustomerPage.jsx:62-72 | a declined delete sends nothing; a confirmed one sends the DELETE and refetches on success, leaving the form |
| `CustomerPage.TransitionsKeepConsistent` | src/components/SalesandDistribution/CustomerPage.jsx:34-101 | every transition keeps edit mode tied to a customer id |
| `CustomerPage.CustomerManager.constructor` | src/components/SalesandDistribution/CustomerPage.jsx:7-17 | no customers, an empty hidden form in add mode, `editId` null |
| `CustomerPage.CustomerManager.FetchCustomers` | src/components/SalesandDistribution/CustomerPage.jsx:25-32 | `fetchCustomers` as the fetch function says |
| `CustomerPage.CustomerManager.HandleChange` | src/components/SalesandDistribution/CustomerPage.jsx:34-36 | `handleChange` as the change function says |
| `CustomerPage.CustomerManager.HandleEdit` | src/components/SalesandDistribution/CustomerPage.jsx:55-60 | `handleEdit` as the edit function says |
| `CustomerPage.CustomerManager.OpenAddNew` | src/components/SalesandDistribution/CustomerPage.jsx:97-101 | the Add New button as its function says |
| `CustomerPage.CustomerManager.Cancel` | src/components/SalesandDistribution/CustomerPage.jsx:219 | the Cancel button as its function says |
| `CustomerPage.CustomerManager.HandleSubmit` | src/components/SalesandDistribution/CustomerPage.jsx:38-53 | `handleSubmit` as the submit function says |
| `CustomerPage.CustomerManager.HandleDelete` | src/components/SalesandDistribution/CustomerPage.jsx:62-72 | `handleDelete` as the delete function says |
| `SuppliersList.SupplierDraft.Put` | src/components/WarehouseManager/SuppliersList.jsx:30-33 | an input sets its own field of the form and leaves the others |
| `SuppliersList.WithoutId` | src/components/WarehouseManager/SuppliersList.jsx:53 | the filter keeps only listed entries and none with the deleted id, and is no longer than the list |
| `SuppliersList.WithoutIdLength` | src/components/WarehouseManager/SuppliersList.jsx:53 | the filter's result is the old length minus the number of entries with the id |
| `SuppliersList.WithoutIdMembers` | src/components/WarehouseManager/SuppliersList.jsx:53 | an entry survives the filter exactly when it was listed and has another id |
| `SuppliersList.WithoutIdConcat` | src/components/WarehouseManager/SuppliersList.jsx:53 | the filter distributes over concatenation, so the survivors keep their order |
| `SuppliersList.WithoutAbsentId` | src/components/WarehouseManager/SuppliersList.jsx:53 | filtering by an id nobody has leaves the list as it was |
| `SuppliersList.FetchOutcome` | src/components/WarehouseManager/SuppliersList.jsx:20-28 | a load replaces the list; a failure alerts "Failed to load suppliers." and keeps it |
| `SuppliersList.InputChangeOnlyThatField` | src/components/WarehouseManager/SuppliersList.jsx:30-33 | an input changes only its field of `newSupplier` and not the list |
| `SuppliersList.AddOutcome` | src/components/WarehouseManager/SuppliersList.jsx:35-45 | a successful add appends the server's record after the unchanged earlier entries and empties the form; a failed one alerts and changes nothing |
| `SuppliersList.DeclinedRemoveChangesNothing` | src/components/WarehouseManager/SuppliersList.jsx:47-49 | a declined delete sends nothing and changes nothing |
| `SuppliersList.RemoveOutcome` | src/components/WarehouseManager/SuppliersList.jsx:47-58 | a successful delete removes exactly the entries with the id, keeping the rest in order; a failed one alerts and keeps the list |
| `SuppliersList.AddThenRemove` | src/components/WarehouseManager/SuppliersList.jsx:35-58 | adding a supplier with a new id and deleting it gives back the earlier list |
| `SuppliersList.SupplierRoster.constructor` | src/components/WarehouseManager/SuppliersList.jsx:7-14 | no suppliers and an empty form |
| `SuppliersList.SupplierRoster.FetchSuppliers` | src/components/WarehouseManager/SuppliersList.jsx:20-28 | `fetchSuppliers` as the fetch function says |
| `SuppliersList.SupplierRoster.HandleInputChange` | src/components/WarehouseManager/SuppliersList.jsx:30-33 | `handleInputChange` as the change function says |
| `SuppliersList.SupplierRoster.HandleAddSupplier` | src/components/WarehouseManager/SuppliersList.jsx:35-45 | `handleAddSupplier` as the add function says |
| `SuppliersList.SupplierRoster.HandleDeleteSupplier` | src/components/WarehouseManager/SuppliersList.jsx:47-58 | `handleDeleteSupplier` as the delete function says |

## Left out

- Browser form validation: the `required` attributes and `type="email"` are left out. A submit reaches the handlers whatever the inputs hold.
- Rendering, styling and animation are left out. The model keeps only what decides the visible outcome: the special field shown, the button captions and disabled states, the message, and the placeholder gate.
- Asynchrony is left out. Each handler is one sequential step. Races between overlapping requests are not modelled: two username checks answered out of order, a refetch that overtakes a later action, a request abandoned on unmount.
- Console logging is left out. It has no observable contract.
- The shape of response data is assumed. A created employee is assumed to carry `employee_id`, and the username check's answer is reduced to whether it `=== true`.
- A non-string error body is left out. The add form's error alert is modelled for the text the server sends; an object rendered as `[object Object]` is not modelled.
- `JsText.ParseIntOfIntToString`: proved for every mathematical integer. JavaScript numbers lose precision beyond 2^53, and `String` switches to exponent notation from 10^21.
- `JsText.ToLower`: lower-cases the ASCII letters only. `toLowerCase` also maps other scripts; the gender values the selector offers are ASCII.
- `Designations.DesignationsOf`: a department named after an inherited object property (such as "toString") would find a non-array value in the source. The model finds nothing.
- The dashboards, read-only tables and production summary statistics are not part of this model. They are fetch-and-render screens with floating-point formatting.
- The Cancel buttons of the add form (`navigate("/hr-dashboard")`) and of the update form, and the back links, only navigate. They are not modelled.

## Findings

| source | as written | input that shows it | evidently intended | confidence | as-written member | corrected member |
|---|---|---|---|---|---|---|
| src/components/HR/UpdateEmployee.jsx:99 | the loading placeholder is shown while `formData.first_name` is empty | load an employee, then clear the First Name input: the whole form is replaced by "Loading employee details...", and with the inputs gone nothing brings it back; an employee stored with an empty first name is never editable | show the placeholder until the employee has been loaded, whatever the first name | not executed | `UpdateEmployee.ClearingFirstNameShowsPlaceholder` | `UpdateEmployee.LoadingGateCorrected` |
