# Admin panel forms — a Dafny model

This project models the admin panel of a bakery/restaurant web shop: the
screens an administrator uses to create discount offers, add and edit menu
items, and browse newsletter subscribers. The panel is a set of React
components. This model keeps their state and event handlers, the checks
that run before anything is sent, and the exact content of what is sent.

The model's modules:

- `MultiSelect` models the checkbox multi-select the offer form uses to pick
  products, categories or festivals. It covers search, toggle, "Select All"
  and "Clear".
- `OfferForm` models the "create offer" form as the class `OfferEditor`. It
  covers the validator that fills the per-field error messages, the selector
  the applicability mode shows, the JSON payload, the reset, the mode switch
  and the input handlers. The title, value, date and list inputs blank
  their field's message; the description and type inputs and the mode switch
  do not.
- `OfferList` models the badge of each offer (Upcoming / Expired / Active) and
  the list's search and status filter.
- `MenuItem` holds what the add and edit forms share. That is the variant
  rows and their handlers, the five-image cap, the branch checkboxes, the
  cleaned variants and their JSON, and the multipart body (`FormData`) as a
  list of named parts.
- `AddMenu` models the "add menu item" form as the class `AddMenuForm`. Its
  submit runs four checks in order, builds the body and clears the form when
  the server accepts it. The festival choice survives the clear.
- `EditMenu` models the "edit menu item" form as the class `EditMenuForm`. It
  covers loading a stored item with its fallbacks, the stored images next to
  the newly picked ones, moving a stored image into the removed list, and the
  update body.
- `Newsletter` models the subscriber table: the search, the total, and the
  "footer" fallback for the source column.

The support modules are `Wrappers` (Option, Result), `Text` (ASCII lower-case,
`includes`, `trim`), `Lists` (filter, map, drop-an-index, `slice(0, n)`),
`NumberInput` (the text of a number input: blank or a number) and `Json` (the
values `JSON.stringify` is applied to).

A few representation choices:

- Dates are instants in milliseconds. A date-only value, such as an offer's start or end date, stands for midnight UTC of its day.
- "Now" is a parameter, time of day included.
- A number input holds `Blank` or `Numeric(n)`, and `Number("")` is 0.
- Each component's state hooks are the fields of one record, `form`.
- A handler replaces that record with the fields it sets changed.
- The server's answer to a request is a boolean parameter (`accepted`).

## Model

| member | source | states |
|---|---|---|
| MultiSelect.FilteredExactly | src/admin/AdminOffer.jsx:30-34 | an item is listed exactly when it is among the items and its name (missing name read as "") contains the search text, ignoring case, that is, the lower-cased search text occurs at some position of the lower-cased name |
| MultiSelect.FilteredEmptyQuery | src/admin/AdminOffer.jsx:30-34 | an empty search lists every item, in order |
| MultiSelect.ToggleFlips | src/admin/AdminOffer.jsx:36-43 | toggling an id selects it exactly when it was not selected, and no other id changes membership |
| MultiSelect.ToggleAbsentTwice | src/admin/AdminOffer.jsx:36-43 | toggling an unselected id twice gives back the identical selection array |
| MultiSelect.TogglePresentTwice | src/admin/AdminOffer.jsx:36-43 | toggling a selected id twice gives back the same set of ids |
| MultiSelect.SelectAll | src/admin/AdminOffer.jsx:45-47 | the new selection is the ids of the listed items, one per listed item, in order |
| MultiSelect.SelectAllExactly | src/admin/AdminOffer.jsx:45-47 | after "Select All" an id is selected exactly when some item matching the search has it |
| MultiSelect.ClearAll | src/admin/AdminOffer.jsx:49-51 | after "Clear" no id is selected |
| OfferForm.SelectorToShow | src/admin/AdminOffer.jsx:234-239 | mode "all" shows no selector; each other mode shows exactly its own list (selected → products, category → categories, festival → festivals) |
| OfferForm.TitleRuleSetsFinalMessage | src/admin/AdminOffer.jsx:154 | the title rule sets "Title is required" exactly when the trimmed title is empty, that is, when the title is white space only |
| OfferForm.ValueRuleSetsFinalMessage | src/admin/AdminOffer.jsx:155-158 | the three value rules, run in order, leave the value field with the message of the last rule that fires, or untouched |
| OfferForm.StartRuleSetsFinalMessage | src/admin/AdminOffer.jsx:159 | the start rule sets its message exactly when the start date is empty |
| OfferForm.EndRuleSetsFinalMessage | src/admin/AdminOffer.jsx:160-167 | the end rules leave the ordering message when the start is after the end, otherwise the required message when the end is empty, otherwise nothing |
| OfferForm.ListRuleSetsFinalMessage | src/admin/AdminOffer.jsx:168-176 | a list rule reports its list exactly when the mode selects that list and it is empty |
| OfferForm.ScalarRulesAgree | src/admin/AdminOffer.jsx:152-167 | after the title, value and date rules the map holds exactly the final message of each of those four fields |
| OfferForm.RuleErrorsAreFormErrors | src/admin/AdminOffer.jsx:151-177 | running every rule in source order from an empty map gives exactly the final message of every field |
| OfferForm.NoErrorsIffValid | src/admin/AdminOffer.jsx:151-180 | the error map is empty exactly when the draft has a non-blank title, a positive value (at most 100 for a percentage), both dates in order, and a non-empty list for the selected mode |
| OfferForm.MissingRequiredFieldReported | src/admin/AdminOffer.jsx:154-160 | a blank title, an empty value, or a missing start or end date is always reported on its own field |
| OfferForm.EmptyValueMessage | src/admin/AdminOffer.jsx:155-156 | an empty value ends with "Value must be greater than 0", and "Discount value is required" is never the message left |
| OfferForm.EndBeforeStartReported | src/admin/AdminOffer.jsx:161-167 | a start date after the end date leaves the end-date field with the ordering message |
| OfferForm.OnlySelectedListChecked | src/admin/AdminOffer.jsx:168-176 | a list is reported exactly when the mode selects it and it is empty; in mode "all" no list is reported |
| OfferForm.TitleAndOrderReportedTogether | src/admin/AdminOffer.jsx:154-167 | an empty title together with reversed dates is reported on both fields |
| OfferForm.ClearShown | src/admin/AdminOffer.jsx:455-457 | editing a field leaves its message not shown, keeps the same keys, and leaves every other field's message as it was |
| OfferForm.PayloadCarriesOneList | src/admin/AdminOffer.jsx:265-280 | a payload carries no id list in mode "all" and exactly the mode's list otherwise, and the ids can be recovered from it |
| OfferForm.ValidPayloadBounds | src/admin/AdminOffer.jsx:257-273 | the payload of a draft that passes validation has a positive value, at most 100 for a percentage, and ordered dates |
| OfferForm.OfferEditor.constructor | src/admin/AdminOffer.jsx:136-149 | the form starts from the blank draft with no errors |
| OfferForm.OfferEditor.ValidateForm | src/admin/AdminOffer.jsx:151-180 | stores the error map of the draft and answers true exactly when the draft is valid |
| OfferForm.OfferEditor.BuildPayload | src/admin/AdminOffer.jsx:265-280 | the payload copies the plain fields, converts the value to a number, and serialises only the list the mode selects |
| OfferForm.OfferEditor.CreateOffer | src/admin/AdminOffer.jsx:257-298 | sends nothing and shows the errors for an invalid draft; otherwise sends the payload for the draft and resets the form when the server reports success |
| OfferForm.OfferEditor.ResetForm | src/admin/AdminOffer.jsx:241-255 | the draft returns to its initial value and the errors are cleared |
| OfferForm.OfferEditor.ChangeAppliesTo | src/admin/AdminOffer.jsx:538-546 | switching mode empties all three id lists and changes nothing else |
| OfferForm.OfferEditor.EditTitle | src/admin/AdminOffer.jsx:455-457 | stores the title and blanks a shown title message |
| OfferForm.OfferEditor.EditValue | src/admin/AdminOffer.jsx:513-516 | stores the value and blanks a shown value message |
| OfferForm.OfferEditor.EditStartDate | src/admin/AdminOffer.jsx:575-578 | stores the start date and blanks a shown start-date message |
| OfferForm.OfferEditor.EditEndDate | src/admin/AdminOffer.jsx:599-602 | stores the end date and blanks a shown end-date message |
| OfferForm.OfferEditor.EditDescription | src/admin/AdminOffer.jsx:477-478 | stores the description and nothing else |
| OfferForm.OfferEditor.EditKind | src/admin/AdminOffer.jsx:491-492 | stores the offer type and nothing else |
| OfferForm.OfferEditor.SetTargets | src/admin/AdminOffer.jsx:632-666 | stores the new selection in its own list, leaves the other lists and fields alone, and blanks that list's shown message |
| OfferList.GetStatus | src/admin/AdminOffer.jsx:350-360 | the badge is Upcoming exactly before the start, Expired exactly after the end (when not before the start), and Active exactly between the two |
| OfferList.FilteredOffersExactly | src/admin/AdminOffer.jsx:319-348 | an offer is listed exactly when its title or description contains the search text (ignoring case) and it passes the status filter's date test |
| OfferList.UnknownFilterKeepsMatches | src/admin/AdminOffer.jsx:325-346 | "all", and any filter value other than the three known ones, keeps every offer matching the search |
| OfferList.AllAndEmptySearchListsEverything | src/admin/AdminOffer.jsx:319-348 | with an empty search and "all", every offer is listed, in order |
| OfferList.StatusFilterMatchesBadge | src/admin/AdminOffer.jsx:327-359 | for an offer whose start is not after its end, each status filter keeps exactly the offers whose badge shows that status |
| OfferList.ExpiredFilterIgnoresStart | src/admin/AdminOffer.jsx:340-344 | an offer ending before it starts passes the "expired" filter while its badge reads Upcoming |
| OfferList.EndDayShowsExpired | src/admin/AdminOffer.jsx:340-359 | because an end date stands for midnight at the start of its day, an offer one hour into its last day is already Expired, passes the "expired" filter and fails the "active" one |
| MenuItem.UpdateVariant | src/admin/AdminMenu.jsx:77-81 | row `i` gets the new value in the edited field; its other field and every other row are unchanged |
| MenuItem.AddVariant | src/admin/AdminMenu.jsx:83-85 | one blank row is appended after the unchanged rows |
| MenuItem.RemoveVariant | src/admin/AdminMenu.jsx:87-90 | the last remaining row is never removed; otherwise row `i` is removed and the others keep their order |
| MenuItem.VariantsNeverEmpty | src/admin/AdminMenu.jsx:83-90 | adding or removing rows never empties a non-empty variant list |
| MenuItem.TakeImagesCap | src/admin/AdminMenu.jsx:64-71 | picking files keeps the held images first and then the new files in order; it keeps all of them when they fit under the cap, and exactly as many as the cap otherwise; a full list stays unchanged |
| MenuItem.ToggleBranchSpec | src/admin/AdminMenu.jsx:268-276 | checking appends the branch after the earlier selection; unchecking deselects it and no other branch |
| MenuItem.CheckThenUncheck | src/admin/AdminMenu.jsx:268-276 | checking an unselected branch and unchecking it again restores the selection |
| MenuItem.ImageParts | src/admin/AdminMenu.jsx:153 | one "images" part per held file, in order |
| MenuItem.ImagePartsRoundTrip | src/admin/AdminMenu.jsx:153 | the files uploaded by the image parts are exactly the held files, in order |
| AddMenu.AddCleanedVariantsSpec | src/admin/AdminMenu.jsx:113-116 | every variant is sent, in order, with its price as a number and a non-empty label with no leading space: its own trimmed label, or "Default" |
| AddMenu.AddSubmissionOutcome | src/admin/AdminMenu.jsx:95-136 | a request is built exactly when a category is chosen, an image is held, every price box is filled and a branch is selected; otherwise the alert is that of the first failing check in source order |
| AddMenu.ZeroPriceAccepted | src/admin/AdminMenu.jsx:108-111 | a price of 0 passes the price check |
| AddMenu.AddBodySubcategoryAndVariants | src/admin/AdminMenu.jsx:119-124 | the body always carries a subcategory part (empty when none is picked) and the cleaned variants |
| AddMenu.AddBodyFestival | src/admin/AdminMenu.jsx:128-130 | the body carries a festival part exactly when a festival is chosen |
| AddMenu.AddBodyBranches | src/admin/AdminMenu.jsx:139 | the body carries the selected branches |
| AddMenu.AddBodyUploads | src/admin/AdminMenu.jsx:153 | the body uploads exactly the held images, in order |
| AddMenu.AddMenuForm.constructor | src/admin/AdminMenu.jsx:8-31 | the form starts with one blank variant, no images, in stock, not a best seller, no branches, preorder off |
| AddMenu.AddMenuForm.HandleImageSelect | src/admin/AdminMenu.jsx:64-71 | the held images become the held ones followed by the picked files, cut at five; at most five images are ever held |
| AddMenu.AddMenuForm.RemoveImage | src/admin/AdminMenu.jsx:73-75 | image `i` is removed and the others keep their order; an index outside the list changes nothing |
| AddMenu.AddMenuForm.UpdateVariantField | src/admin/AdminMenu.jsx:77-81 | the variants become the updated rows and nothing else changes |
| AddMenu.AddMenuForm.AddVariantRow | src/admin/AdminMenu.jsx:83-85 | a blank row is appended and nothing else changes |
| AddMenu.AddMenuForm.RemoveVariantRow | src/admin/AdminMenu.jsx:87-90 | the row is removed unless it is the last; at least one row always remains |
| AddMenu.AddMenuForm.ChooseCategory | src/admin/AdminMenu.jsx:218-225 | a new category is stored and the subcategory cleared |
| AddMenu.AddMenuForm.ToggleBranchBox | src/admin/AdminMenu.jsx:268-276 | the branch selection is toggled and nothing else changes |
| AddMenu.AddMenuForm.BuildSubmission | src/admin/AdminMenu.jsx:95-153 | returns the first failing check's alert, or the body, with the image parts appended by a loop |
| AddMenu.AddMenuForm.Submit | src/admin/AdminMenu.jsx:95-186 | reports the submission's outcome; after an accepted request the form is back at its initial state except for the festival choice; otherwise the form is unchanged |
| EditMenu.LoadItemSpec | src/admin/EditMenu.jsx:76-101 | a loaded form has the stored variants, or one blank row when there are none; it is in stock unless the item says it is not, and a best seller only when the item says so; preorder settings change only when the item enables preorder; new files and removed URLs are untouched |
| EditMenu.EditImageSelectCap | src/admin/EditMenu.jsx:115-120 | with at most five stored images, the new files kept are the held ones followed by the picked ones in order; all are kept when stored plus new fit in five, otherwise exactly five minus the stored count; a full set stays unchanged and the total never exceeds five |
| EditMenu.RemoveExistingKeepsUrls | src/admin/EditMenu.jsx:453-458 | removing a stored image moves its URL to the removed list: together the two lists keep the same URLs |
| EditMenu.EditCleanedVariantsSpec | src/admin/EditMenu.jsx:152-159 | every cleaned variant has a positive price and comes from a priced row; every priced row is sent in cleaned form; the cleaned list is empty exactly when no row is priced |
| EditMenu.EditCleanedVariantsOrder | src/admin/EditMenu.jsx:152-159 | cleaning keeps the rows' order |
| EditMenu.EditSubmissionOutcome | src/admin/EditMenu.jsx:148-180 | an update is built exactly when some row is priced and a branch is selected; the priced-row check comes first |
| EditMenu.EditBodySubcategory | src/admin/EditMenu.jsx:197-199 | the body carries a subcategory part exactly when one is chosen |
| EditMenu.EditBodyFestival | src/admin/EditMenu.jsx:202-204 | the body carries a festival part exactly when one is chosen |
| EditMenu.EditBodyNameAndRemoved | src/admin/EditMenu.jsx:168-174 | the body carries the trimmed name and the removed image URLs |
| EditMenu.EditBodyUploads | src/admin/EditMenu.jsx:207-209 | the body uploads exactly the new files, in order, and no stored image |
| EditMenu.EditMenuForm.constructor | src/admin/EditMenu.jsx:13-44 | the form starts with one blank variant, no images, in stock, preorder off |
| EditMenu.EditMenuForm.Load | src/admin/EditMenu.jsx:76-101 | the form becomes the loaded state of the stored item, and keeps at least one variant row |
| EditMenu.EditMenuForm.HandleImageSelect | src/admin/EditMenu.jsx:115-120 | the new files become the held ones followed by the picked ones, cut at five minus the stored count; the total stays at most five when the stored count does |
| EditMenu.EditMenuForm.RemoveNewImage | src/admin/EditMenu.jsx:122-124 | new file `i` is removed and the others keep their order |
| EditMenu.EditMenuForm.RemoveExistingImage | src/admin/EditMenu.jsx:453-458 | stored image `i` leaves the stored list and its URL is appended to the removed list; no URL is lost |
| EditMenu.EditMenuForm.UpdateVariantField | src/admin/EditMenu.jsx:129-133 | the variants become the updated rows and nothing else changes |
| EditMenu.EditMenuForm.AddVariantRow | src/admin/EditMenu.jsx:135 | a blank row is appended and nothing else changes |
| EditMenu.EditMenuForm.RemoveVariantRow | src/admin/EditMenu.jsx:137-140 | the row is removed unless it is the last; at least one row always remains |
| EditMenu.EditMenuForm.ChooseCategory | src/admin/EditMenu.jsx:257-266 | a new category is stored and the subcategory cleared |
| EditMenu.EditMenuForm.ToggleBranchBox | src/admin/EditMenu.jsx:308-316 | the branch selection is toggled and nothing else changes |
| EditMenu.EditMenuForm.Submit | src/admin/EditMenu.jsx:148-209 | returns the first failing check's alert, or the update body, with the image parts appended by a loop |
| Newsletter.LoadedItems | src/admin/AdminNewsletter.jsx:25 | a response without items gives an empty list, otherwise the items as sent |
| Newsletter.FilteredExactly | src/admin/AdminNewsletter.jsx:37-39 | a subscriber is shown exactly when its e-mail contains the search text, ignoring case, that is, the lower-cased search text occurs at some position of the lower-cased e-mail |
| Newsletter.FilteredKeepsOrder | src/admin/AdminNewsletter.jsx:37-39 | the table keeps the order of the loaded list |
| Newsletter.EmptySearchShowsAll | src/admin/AdminNewsletter.jsx:37-39 | an empty search shows every subscriber, and the total is then the number loaded |
| Newsletter.SearchIgnoresCase | src/admin/AdminNewsletter.jsx:37-39 | searching in lower case or as typed shows the same rows |
| Newsletter.Total | src/admin/AdminNewsletter.jsx:112 | the total never exceeds the number of subscribers loaded, and equals it exactly when every subscriber matches the search |
| Newsletter.DisplayedSource | src/admin/AdminNewsletter.jsx:96 | the source column shows the stored source, or "footer" when it is missing or empty |

## Left out

- Network requests are not modelled: the fetches of offers, menu items, categories, festivals, branches, subcategories and the stored item; the posts and puts; `deleteOffer` and `toggleOffer`. These only call the server and fetch again. The server's verdict is the `accepted` parameter.
- Alerts, console output, the token in local storage, the loading/submitting flags, the active tab, the form visibility toggle, navigation after an update, and the date formatting of the list and the subscriber table are not modelled. They are user interface or I/O.
- The plain input setters are not modelled as methods of their own: name, description, subcategory, festival, best-seller, in-stock and the preorder inputs of both menu forms. Each only stores its input. The record update of each modelled handler shows the same shape.
- `Text.Lower` and `Text.Trim` follow ASCII only. JavaScript's `toLowerCase` and `trim` also handle non-ASCII letters and spaces.
- Date strings are read as instants, date-only values at midnight UTC. An invalid date, which JavaScript turns into NaN with every comparison false, is not modelled.
- Number inputs hold blank or a number. Non-numeric text (NaN) is not modelled, and prices and values are exact reals rather than floating point.
- MenuItem.UpdateVariant: does not model that `copy[i][field] = value` also mutates the row object shared with the previous state array; the model produces a new row value.
- React's asynchronous, batched state updates are not modelled. Each handler's updates are applied at once, in source order.
- EditMenu.EditImageSelectCap: requires at most five stored images. With more, the end of the slice is negative and cuts from the end. The model's `SliceTo` does the same, but the add-image tile is then hidden (src/admin/EditMenu.jsx:485), so the cap is stated only for five or fewer.
- The `removedImages` state of the add form and the `category` state of the edit form are never used by the source, so they are not modelled.
- OfferList.StatusFilterMatchesBadge: stated only for offers whose start is not after their end. OfferList.ExpiredFilterIgnoresStart shows the other case.
- AddMenu.AddSubmissionOutcome: does not model the browser's own form checks, which block a submit before the handler runs: `required` on the name input (src/admin/AdminMenu.jsx:201) and on the category select (src/admin/AdminMenu.jsx:226), `min="0"`/`step="0.01"` on the price inputs (src/admin/AdminMenu.jsx:375-376), and `min="0"` with the default step of 1 on the preorder "Minimum days before pickup" input while preorder is enabled (src/admin/AdminMenu.jsx:301-306). In the browser an empty name, a missing category, a negative price, or a negative or fractional minimum of days never reaches the handler; in the model such a state is sent, or stopped by the handler's own category check.
- EditMenu.EditSubmissionOutcome: does not model the same browser checks on the edit form: `required` on the name input (src/admin/EditMenu.jsx:244) and on the category select (src/admin/EditMenu.jsx:267), `min="0"`/`step="0.01"` on the price inputs (src/admin/EditMenu.jsx:415-416), and `min="0"` with the default step of 1 on the preorder "Minimum days before pickup" input while preorder is enabled (src/admin/EditMenu.jsx:341-346). A negative price is dropped by the handler's own cleaning anyway, but an empty name or category, or a negative or fractional minimum of days with preorder enabled, is sent in the model.
- OfferForm.OfferEditor.ValidateForm: does not model the browser's `step="0.01"` check on the offer value (src/admin/AdminOffer.jsx:511), which blocks a value with more than two decimals before the validator runs.
