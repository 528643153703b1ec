# Fieldmaster billing and scheduling core, in Dafny

Fieldmaster is a field-service app. Customers book appointments, technicians
are assigned, and bills and estimates are raised with itemised line items.
This project models the parts of it that hold logic:

- **`BillLineItems`** (`line_items.dfy`) models the Node backend's `BillLineItem` record.
  - Its columns, defaults and not-null rules are modelled, with Sequelize's create semantics.
  - The total is computed as the pages compute it: a running sum of quantity × unit price.
- **`BillDetail`** (`bill_detail.dfy`) models the bill detail page:
  - the initial form;
  - the form built from a fetched bill;
  - the `name`-keyed input handler;
  - the line-item rows and the footer total.
- **`BillPdf`** (`bill_pdf.dfy`) models the printable bill:
  - customer and appointment captions found by strict id equality;
  - the Part/Employee # cell;
  - row totals and the document total.
- **`PhotoUpload`** (`photo_upload.dfy`) models the photo dialog as a class whose methods update its state.
  - It covers file acceptance (5 MiB and `image/*`), upload, fetch, delete and show.
  - Every network call is a parameter saying how it ends.
- **`AppointmentModels`** (`django_models.dfy`) models the Django models:
  - the phone `RegexValidator` as an explicit characterisation of `^\+?1?\d{9,15}$`;
  - `Customer.__str__`;
  - the choices and defaults;
  - `Appointment.save`, on a `Store` class holding the appointment and bill tables. The first save of an appointment creates exactly one draft bill.
- **`AppointmentViews`** (`views.dfy`) models the `get_queryset` filters of the appointment and bill view sets.
  - Query texts are converted as the ORM converts them: Python's `int()` for foreign keys, `YYYY-M-D` for the date column.
  - A text that does not convert yields an error.
- **`Dashboard`** (`dashboard.dfy`) models:
  - the status counts;
  - the fetch outcome;
  - the calendar events;
  - the event colour chosen by status.
- **`Billing`** (`billing.dfy`) models the billing dialog:
  - dotted names routed into the nested new-customer record;
  - the toggle;
  - the dialog reset;
  - customer-id resolution (created customer, selected customer, or null for cash/walk-in);
  - PUT for an edited bill versus POST for a new one.
- **`Customers`** (`customers.dfy`) models the customer dialog:
  - the reset;
  - PUT versus POST and the URL;
  - the prioritised `||` chain that picks the error message.
- Two support modules:
  - **`Wrappers`** holds `Option` and `Result`.
  - **`Js`** holds JSON-like values, JavaScript truthiness and `||`, `startsWith` and number-to-text.

Representation choices:

- **Money.** DECIMAL(10,2) amounts are integers counting hundredths. A row amount (quantity × unit price) counts ten-thousandths, so totals are exact.
- **Strict equality.** JavaScript `===` is datatype equality on `Js.Value`, so the number `3` and the text `"3"` differ.

Three things in the code are worth noting:

- `is_taxable` is stored and never read, so no total applies tax. Every total is the plain sum of quantity × unit price.
- The printable bill reads `item.part_number` for non-labour rows. The line-item record has no such column, so that cell is always empty (`BillPdf.ReferenceCell`).
- The bill detail page offers the status `overdue`. The Django `Bill` status choices do not include it (`AppointmentModels.OverdueIsNotABillStatus`).

## Model

| member | source | states |
|---|---|---|
| BillLineItems.Create | backend/src/models/BillLineItem.js:13-53 | Creation fails exactly when a non-null column ends up null, listing those columns in declaration order. Left-out attributes take their defaults: quantity 1, unit price 0, not labour, taxable. Null notes and employee number stay null. Given values are kept. |
| BillLineItems.NewLineItemDefaults | backend/src/models/BillLineItem.js:18-41 | A line item given only a description and a bill is created with quantity 1.00, unit price 0.00, is_labor false, is_taxable true, and no notes or employee number. |
| BillLineItems.NullQuantityRejected | backend/src/models/BillLineItem.js:18-22 | An explicit null quantity is rejected even though the column has a default. |
| BillLineItems.Total | frontend/src/pages/BillDetail.js:259 | The `reduce` total: starting from 0, each item in order adds its quantity × unit price. |
| BillLineItems.Amounts | frontend/src/pages/BillDetail.js:250 | One row amount per item, in order, each its own quantity × unit price. |
| BillLineItems.TotalAppend | frontend/src/pages/BillDetail.js:259 | Appending an item grows the running total by that item's amount. |
| BillLineItems.TotalConcat | frontend/src/pages/BillDetail.js:259 | The total of two lists put together is the sum of their totals. |
| BillLineItems.SumConcat | frontend/src/pages/BillDetail.js:259 | The independent right-fold sum also splits over concatenation. |
| BillLineItems.TotalIsSumOfAmounts | frontend/src/pages/BillDetail.js:245-259 | The reduce total equals the sum of the displayed row amounts. |
| BillLineItems.TotalPermutation | frontend/src/pages/BillDetail.js:259 | The total does not depend on the order of the line items. |
| BillLineItems.TotalIgnoresFlags | backend/src/models/BillLineItem.js:32-41 | The total reads only quantities and unit prices. Lists that agree on those have equal totals whatever their labour and taxable flags, so no tax is applied. |
| BillLineItems.TotalNonNegative | frontend/src/pages/BillDetail.js:259 | Non-negative quantities and prices give a non-negative total. |
| BillDetail.InitialForm | frontend/src/pages/BillDetail.js:15-25 | The page starts with empty customer and appointment, type 'bill', status 'draft', empty texts and no line items. |
| BillDetail.FormFromBill | frontend/src/pages/BillDetail.js:33-47 | The form the page sets after fetching: `customer?.id \|\| ''`, `appointment?.id \|\| ''`, and the other fields copied from the answer. |
| BillDetail.FormFromBillFields | frontend/src/pages/BillDetail.js:33-47 | The fetched bill fills the form. For the customer and the appointment alike, an absent related record or a falsy id becomes '' and a truthy id is kept. The other fields are copied unchanged. |
| BillDetail.FieldNamed | frontend/src/pages/BillDetail.js:95-101 | A name denotes the input of that name when there is one, and no input otherwise (both directions). |
| BillDetail.HandleInputChange | frontend/src/pages/BillDetail.js:95-101 | The field named by the input takes the value and every other field, line items included, keeps its value. |
| BillDetail.HandleInputChangeLastWins | frontend/src/pages/BillDetail.js:95-101 | A later change of the same field overrides an earlier one. |
| BillDetail.Rows | frontend/src/pages/BillDetail.js:245-252 | One row per line item, in order, showing its description, quantity, unit price and quantity × unit price. |
| BillDetail.RowAmounts | frontend/src/pages/BillDetail.js:250 | The row amounts, one per row and in order. |
| BillDetail.FooterTotal | frontend/src/pages/BillDetail.js:259 | The footer is the `reduce` total of the form's line items. |
| BillDetail.FooterIsSumOfRows | frontend/src/pages/BillDetail.js:245-259 | The footer total is the sum of the row amounts, and 0 without line items. |
| BillDetail.FooterUnchangedByInput | frontend/src/pages/BillDetail.js:95-101 | Typing into any input leaves the footer total unchanged. |
| BillPdf.FindIndex | frontend/src/pages/BillPDFDocument.js:50 | `find` yields the first element that satisfies the predicate, or nothing when none does. |
| BillPdf.CustomerName | frontend/src/pages/BillPDFDocument.js:49-52 | The caption is "first last" of the first customer whose id is strictly equal to the form's customer, and '' when no id is equal. |
| BillPdf.AppointmentDescription | frontend/src/pages/BillPDFDocument.js:53-56 | The caption is "#id - description" of the first appointment whose id is strictly equal, and '' when none is. |
| BillPdf.TextCustomerNamesNobody | frontend/src/pages/BillPDFDocument.js:50 | With numeric customer ids, a form customer held as text matches none of them, so the caption is empty. |
| BillPdf.AppointmentCaptionShape | frontend/src/pages/BillPDFDocument.js:55 | A matched appointment's caption starts with '#', the decimal text of its id and ' - '. |
| BillPdf.ReferenceCell | frontend/src/pages/BillPDFDocument.js:90 | The Part/Employee # cell: a labour item's employee number; otherwise the missing part_number, which is empty. |
| BillPdf.Rows | frontend/src/pages/BillPDFDocument.js:87-95 | One printed row per line item, in order. Labour rows show the employee number and other rows an empty part cell. The row total is quantity × unit price. |
| BillPdf.RowTotals | frontend/src/pages/BillPDFDocument.js:93 | The printed row totals, in order. |
| BillPdf.DocumentTotal | frontend/src/pages/BillPDFDocument.js:57 | The printed total is the `reduce` total of the form's line items. |
| BillPdf.DocumentTotalIsSumOfRows | frontend/src/pages/BillPDFDocument.js:57 | The printed total is the sum of the printed row totals, is 0 for no rows, and equals the detail page's footer for the same form. |
| PhotoUpload.Classify | frontend/src/components/PhotoUpload.js:36-45 | The size check first (over 5 × 1024 × 1024 bytes is too large), then the 'image/' type-prefix check. |
| PhotoUpload.ClassifyRules | frontend/src/components/PhotoUpload.js:33-47 | A file is accepted exactly when it is at most 5 MiB and its type starts with 'image/'. An oversized file is refused for size whatever its type, and exactly 5 MiB passes. |
| PhotoUpload.PhotoUploader.constructor | frontend/src/components/PhotoUpload.js:5-12 | The dialog starts hidden, with no photos, not loading or uploading, an empty description, no file and no error. The upload button starts disabled. |
| PhotoUpload.PhotoUploader.HandleFileSelect | frontend/src/components/PhotoUpload.js:33-47 | No file changes nothing. An oversized or non-image file clears the selection with its message. An accepted file becomes the selection and clears the error. Nothing else changes. A refused file leaves the upload button disabled; an accepted one picked while no upload runs enables it. |
| PhotoUpload.PhotoUploader.SetDescription | frontend/src/components/PhotoUpload.js:118-122 | The description input sets the description and nothing else. |
| PhotoUpload.PhotoUploader.UploadEnabled | frontend/src/components/PhotoUpload.js:129 | The upload button's guard: enabled exactly when a file is selected and no upload is running. The constructor, HandleFileSelect, HandleUpload and PickThenUpload state its value afterwards. |
| PhotoUpload.PhotoUploader.HandleUpload | frontend/src/components/PhotoUpload.js:49-82 | Without a file: the no-file message and no post. With a file: it is posted with the object type, id and description. Success clears the description, selection and error, refetches, and notifies a callback if there is one. Failure keeps the form and shows the failure message. Uploading is off at the end. Afterwards the upload button is enabled exactly when a post was made and failed. |
| PhotoUpload.PhotoUploader.FetchPhotos | frontend/src/components/PhotoUpload.js:20-31 | The answer replaces the list and a failure shows its message, keeping the list. Loading is off at the end. |
| PhotoUpload.PhotoUploader.HandleDelete | frontend/src/components/PhotoUpload.js:84-94 | Nothing happens unless confirmed. A confirmed delete refetches on success and shows the delete message on failure. |
| PhotoUpload.PhotoUploader.SetShow | frontend/src/components/PhotoUpload.js:14-18 | Opening a hidden dialog fetches the list. Re-opening an open one or closing it does not. |
| PhotoUpload.PickThenUpload | frontend/src/components/PhotoUpload.js:33-82 | Picking an acceptable file and uploading it successfully posts exactly that file and leaves the form empty, error-free and idle, with the upload button disabled. |
| AppointmentModels.PhoneCharacterization | appointments/models.py:9-12 | The pattern matches exactly an optional '+' followed by 9 to 16 digits, where 16 digits need a leading '1'. |
| AppointmentModels.AcceptedPhoneFitsColumn | appointments/models.py:9-13 | Every accepted phone has 9 to 17 characters, so it fits max_length 17. |
| AppointmentModels.ValidatePhone | appointments/models.py:9-12 | The validator accepts exactly what the pattern matches and otherwise reports its message. |
| AppointmentModels.PhoneExampleAccepted | appointments/models.py:11 | The message's own example '+999999999' is accepted. |
| AppointmentModels.PhoneExampleDashed | appointments/models.py:10 | A dashed number is refused with the message. |
| AppointmentModels.CustomerText | appointments/models.py:18-19 | `Customer.__str__`: the first name and the last name joined by one space. |
| AppointmentModels.CustomerTextParts | appointments/models.py:18-19 | The display text is the first name, a space, then the last name. |
| AppointmentModels.CustomerTextExample | appointments/models.py:18-19 | John Doe is displayed as "John Doe". |
| AppointmentModels.NewAppointment | appointments/models.py:47-54 | A new appointment has no key and no technician, status 'scheduled' and priority 'medium' (both among the choices), and empty notes. |
| AppointmentModels.NewBill | appointments/models.py:95-102 | A new bill has status 'draft' (a choice), amount 0, empty texts and no due date. |
| AppointmentModels.DraftBillFor | appointments/models.py:66-71 | The bill a first save creates: the appointment's customer, linked to the appointment, type 'bill', status 'draft', with the other fields at their defaults. |
| AppointmentModels.OverdueIsNotABillStatus | appointments/models.py:88-93 | 'overdue' is not one of the bill status choices. |
| AppointmentModels.BillsAfterInsert | appointments/models.py:66-71 | Inserting a bill under a fresh key adds that key to the bills of its appointment and changes no other appointment's bills. |
| AppointmentModels.Store.constructor | appointments/models.py:31-71 | The tables start empty and consistent. |
| AppointmentModels.Store.SaveAppointment | appointments/models.py:61-71 | A save without a key inserts the row under a fresh key and creates exactly one draft 'bill' for its customer pointing at it. A save with a key writes the row under that key and creates no bill. Table consistency is kept either way. |
| AppointmentModels.Store.InsertNew | appointments/models.py:62-71 | The first save: a fresh appointment key, one new bill under a fresh bill key, and that bill is the only one pointing at the new appointment. |
| AppointmentModels.Store.WriteWithKey | appointments/models.py:62-64 | A save of a keyed row overwrites that key and leaves the bills unchanged. |
| AppointmentViews.Where | appointments/views.py:48-53 | A filter never lengthens the rows. |
| AppointmentViews.WhereContents | appointments/views.py:48-53 | A filtered row is a stored row that passes. Each passing row occurs in the result exactly as often as it is stored, and a failing row not at all. |
| AppointmentViews.WhereWhere | appointments/views.py:48-53 | Chained filters are one filter on their conjunction. |
| AppointmentViews.FiltersCommute | appointments/views.py:73-78 | The order in which the filters are chained does not matter. |
| AppointmentViews.WhereAll | appointments/views.py:43 | A filter every row passes keeps all rows. |
| AppointmentViews.ParseInt | appointments/views.py:50-51 | Python's `int()` on the query text: an optional sign and ASCII digits give their integer, and any other text is an error. |
| AppointmentViews.ParseDate | appointments/views.py:52-53 | A converted date parameter is always a valid calendar date. |
| AppointmentViews.PadDigits | appointments/views.py:52-53 | Zero-padded digits have the requested width and denote the number when it fits. |
| AppointmentViews.ParseIsoDate | appointments/views.py:52-53 | Every valid date written as YYYY-MM-DD converts back to that date. |
| AppointmentViews.ParseDateRefusesFebruary29Of2023 | appointments/views.py:52-53 | A date text naming no calendar day is refused. |
| AppointmentViews.AppointmentQueryset | appointments/views.py:42-55 | The request fails exactly when a given technician is not an integer or a given date is not a date. Otherwise the result is the stored appointments passing every given filter: status, technician id and date. |
| AppointmentViews.AppointmentQuerysetContents | appointments/views.py:42-55 | An appointment is listed iff it is stored and has the requested status, technician and date. No row is listed more often than it is stored. |
| AppointmentViews.NoAppointmentParamsListsAll | appointments/views.py:48-53 | Absent or empty parameters list every appointment. |
| AppointmentViews.BillQueryset | appointments/views.py:67-80 | The request fails exactly when a given customer is not an integer. Otherwise the result is the stored bills passing the given customer, type and status filters. |
| AppointmentViews.BillQuerysetContents | appointments/views.py:67-80 | A bill is listed iff it is stored and has the requested customer, type and status. |
| AppointmentViews.NoBillParamsListsAll | appointments/views.py:73-78 | Absent or empty parameters list every bill. |
| Dashboard.WithStatus | frontend/src/pages/Dashboard.js:45-48 | The filtered list holds only appointments of that status, drawn from the list, and keeps every appointment of that status. |
| Dashboard.Statuses | frontend/src/pages/Dashboard.js:43-49 | The statuses of the appointments, in order. |
| Dashboard.ComputeStats | frontend/src/pages/Dashboard.js:43-49 | The stats object: the list's length, and for each of the four statuses the length of the list filtered by strict equality with it. |
| Dashboard.CountIsMultiplicity | frontend/src/pages/Dashboard.js:45-48 | Each count is the number of appointments with exactly that status. |
| Dashboard.CountsBoundedByTotal | frontend/src/pages/Dashboard.js:43-49 | The four counts add up to at most the total, and to exactly the total when every status is one of the model's four choices. |
| Dashboard.StatsBounds | frontend/src/pages/Dashboard.js:43-49 | The total is the list's length and bounds every count. |
| Dashboard.AfterFetch | frontend/src/pages/Dashboard.js:34-59 | Loading ends either way. An answer stores the list and exactly the stats computed from it. An error stores its message with an empty list and all-zero stats. |
| Dashboard.Events | frontend/src/pages/Dashboard.js:77-84 | One event per appointment, in order, with its id, status and priority, titled "first last". |
| Dashboard.EventColor | frontend/src/pages/Dashboard.js:86-95 | The background colour: green for completed, red for cancelled, amber for in progress, and the default blue otherwise. |
| Dashboard.EventColorMapping | frontend/src/pages/Dashboard.js:86-95 | Completed is green, cancelled red, in progress amber, and anything else the default blue (each both directions). |
| Dashboard.EventStyle | frontend/src/pages/Dashboard.js:96-105 | The style carries the status colour, opacity 0.8, white text and block display. |
| Billing.BlankForm | frontend/src/pages/Billing.js:35-51 | The blank form has type 'bill', empty texts, no due date, a blank new customer and the toggle off. |
| Billing.TopFieldNamed | frontend/src/pages/Billing.js:133-138 | A name denotes the top-level input of that name when there is one, and none otherwise. |
| Billing.CustomerFieldNamed | frontend/src/pages/Billing.js:124-132 | A segment denotes the nested input of that name when there is one, and none otherwise. |
| Billing.UpToDot | frontend/src/pages/Billing.js:125 | The result is the longest dot-free prefix of the text. |
| Billing.UpToDotOfDotless | frontend/src/pages/Billing.js:125 | A dot-free segment is its own first split piece. |
| Billing.HandleInputChange | frontend/src/pages/Billing.js:122-139 | A 'new_customer.X' name sets nested field X only, and every top-level field is unchanged. Any other name sets only the top-level field of that name, leaving the nested record, due date and toggle unchanged. |
| Billing.NestedInputReachesField | frontend/src/pages/Billing.js:124-132 | Each rendered nested input updates exactly its own nested field. |
| Billing.TopInputReachesField | frontend/src/pages/Billing.js:133-138 | Each rendered top-level input updates exactly its own field. |
| Billing.ToggleNewCustomer | frontend/src/pages/Billing.js:274 | The toggle flips is_new_customer and changes nothing else. |
| Billing.ToggleTwice | frontend/src/pages/Billing.js:274 | Toggling twice restores the form. |
| Billing.OpenDialog | frontend/src/pages/Billing.js:76-115 | The dialog opens on the given bill. Without a bill the form is the blank form. With one its fields are copied, with a blank new customer and the toggle off. |
| Billing.MakeBillData | frontend/src/pages/Billing.js:152-159 | A truthy customer id is sent as is and a falsy one as null (cash/walk-in). The other fields and the due date are passed through. |
| Billing.BillRequest | frontend/src/pages/Billing.js:161-165 | An edited bill is PUT to /bills/{id}/ and a new one POSTed to /bills/. |
| Billing.EditPathsDistinct | frontend/src/pages/Billing.js:162 | Edited bills with different numeric ids go to different paths. |
| Billing.Submit | frontend/src/pages/Billing.js:141-172 | With the toggle on and a first name typed, the customer is POSTed first; if that fails nothing more happens. Then the bill is sent, so exactly two requests go out when a customer is created and one otherwise. The bill is sent with the resolved customer id, and the list is refetched and the dialog closed exactly when that succeeds. |
| Billing.SubmittedCustomerId | frontend/src/pages/Billing.js:144-155 | The sent customer id is the created customer's when one is created. Otherwise it is the selected one, and an unselected '' is sent as null. |
| Billing.NoNameNoCustomer | frontend/src/pages/Billing.js:147 | With the toggle on but no first name, no customer is created and the bill is the only request. |
| Customers.HandleOpen | frontend/src/pages/Customers.js:48-63 | The dialog opens. Without a customer the selection is cleared and all five fields are ''. With one it is selected and its fields fill the form. |
| Customers.SaveRequest | frontend/src/pages/Customers.js:74-85 | With a selection: PUT to the customer's own URL. Without one: POST to the list URL (both directions). The form is the body. |
| Customers.SaveUrlsDistinct | frontend/src/pages/Customers.js:74-76 | An edit never targets the list URL, and different numeric ids get different URLs. |
| Customers.FirstEntry | frontend/src/pages/Customers.js:93-95 | `x?.[0]` is the first entry, and falsy when the key is absent or the list empty. |
| Customers.DetailOf | frontend/src/pages/Customers.js:96 | `detail` when present, and falsy otherwise. |
| Customers.ErrorMessage | frontend/src/pages/Customers.js:92-98 | The `\|\|` chain over `phone?.[0]`, `email?.[0]`, `non_field_errors?.[0]` and `detail`, ending in 'Failed to save customer.'. A null body reads as all keys undefined. |
| Customers.ErrorMessagePriority | frontend/src/pages/Customers.js:92-98 | The message is the first truthy among phone[0], email[0], non_field_errors[0] and detail, else 'Failed to save customer.'. |
| Customers.ErrorMessageShown | frontend/src/pages/Customers.js:92-98 | The chosen message is always truthy, and a non-empty text when the server's entries are texts. |
| Customers.Submit | frontend/src/pages/Customers.js:70-105 | The error is cleared first. Success refetches and closes. A failed answer shows the chosen message. A thrown request shows 'Error saving customer.'. |
| Customers.SubmitLeavesError | frontend/src/pages/Customers.js:72-102 | The error line ends empty exactly after a success, and shows a truthy message after any failure. |
| Js.DigitChar | frontend/src/pages/BillPDFDocument.js:55 | The character of a digit is a digit denoting it. |
| Js.NatToString | frontend/src/pages/BillPDFDocument.js:55 | The decimal text of a number is non-empty, all digits, without a leading zero, and denotes the number. |
| AppointmentViews.ParseIntOfIntToString | appointments/views.py:50-51 | Converting an integer's decimal text back gives that integer. |
| Js.SignOfText | frontend/src/pages/Billing.js:162 | An integer's text is non-empty and starts with '-' exactly when the integer is negative. |
| Js.IntToStringInjective | frontend/src/pages/Billing.js:162 | Different integers have different decimal texts. |
| AppointmentViews.ParseIntShape | appointments/views.py:50-51 | A converted text is non-empty and all digits, apart from one leading sign. |

## Left out

- Network, timers and the browser are not modelled. Every request's outcome is a parameter: success or failure, the answer's data, or a thrown error. `window.confirm` is a boolean parameter. Console logging is dropped.
- Floating point and `toFixed(2)` are not modelled. Amounts are exact hundredths, row amounts exact ten-thousandths, and the rendering of either as text is not modelled.
- Dates as JavaScript or Python objects are not modelled:
  - `new Date(...)` in the dashboard events and the billing dialog;
  - date-fns `format(..., 'yyyy-MM-dd')`;
  - `toLocaleDateString`.

  Event start and end are kept as the texts handed to `new Date`. The billing due date is kept as the calendar day it denotes.
- Billing.OpenDialog and Billing.MakeBillData: the due date is kept as the calendar day it denotes, so opening a bill and saving it resends the same day. In the page, `new Date('YYYY-MM-DD')` reads the text as midnight UTC and date-fns `format` prints it in local time. West of UTC, saving an edited bill without touching the picker therefore resends the previous day. The model does not capture this one-day shift.
- AppointmentViews.ParseDate: accepts the `YYYY-M-D` form of Django's date pattern with calendar validity. It does not model Python's `fromisoformat` extras, Unicode digits or surrounding whitespace.
- AppointmentViews.ParseInt: models Python `int()` on a sign and ASCII digits. Whitespace, underscores and non-ASCII digits are not modelled. The ORM raising on a bad value is modelled as an error result.
- `QueryDict.get` returning the last of repeated parameters is not modelled: each parameter is one optional text.
- AppointmentModels.PhoneCharacterization: `$` also matching before a trailing newline, and `\d` matching non-ASCII digits, are not modelled.
- Column bounds (DECIMAL(10,2), STRING(50), max_length) are a predicate of the line-item model (`BillLineItems.FitsColumns`). They are not enforced as errors, because whether an out-of-range value is rejected or truncated depends on the database dialect, which is not part of this model.
- AppointmentModels.Store.WriteWithKey: moves the next key past an explicit key. Real auto-increment after an explicit key depends on the database.
- AppointmentModels: `Technician.__str__`, `Appointment.__str__`, `Bill.__str__` and `AppointmentPhoto` are not modelled (display texts over timestamps and related rows).
- Cascading deletes and `SET_NULL` on delete are not modelled.
- BillDetail: `handleSubmit`'s PUT is not modelled. It sends the form as it stands, and its only logic is the success-message timer.
- BillDetail.HandleInputChange and Billing.HandleInputChange: a name that is not one of the rendered inputs adds a key the page never reads, so such a name changes nothing in the model. A nested name whose segment is not a nested field is treated the same way. Overwriting `due_date`, `is_new_customer` or `new_customer` with input text is not modelled.
- Customers.HandleOpen: the page copies the whole listed customer object into the form, including `id` and timestamps, and sends them back in the PUT body. The model keeps only the five form fields.
- Customers: `errorData?.phone?.[0]` on a phone that is a plain string would take its first character. The model takes the server's errors to be lists.
- PhotoUpload.PhotoUploader.HandleUpload: a callback that throws is not modelled. The callback is a flag saying whether one is present.
- PhotoUpload: rendering (spinners, thumbnails, the modal) is not modelled.
- Tax: no file computes it, so no tax is modelled.
- Not part of this model, because they are plumbing:
  - the line-item routes and controller;
  - the Appointments, AppointmentDetail, CustomerDetail, Technicians, Settings, Login and App pages;
  - the API and auth services and the settings context;
  - the service worker;
  - the Django serializers, admin, urls and migrations.
