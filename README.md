# Order entry and deviation planning — a Dafny model

This project models the logic of a single-page app for workforce planning in logistics. A planner enters an order ("Auftrag") and its shift system (Früh, Tag, Spät, Nacht) with working times. They record activities ("Tätigkeiten") per shift, recording the employees needed, and add expenses whose cost type decides which date they carry. Submitting the order snapshots a base plan and unlocks the second tab. There the planner maintains a history of deviation plans ("Soll-Pläne"): a plan is created from an edit buffer of dated rows, edited in place, and deactivated.

Module by module:

- `Common`: optional values, JavaScript truthiness of optional strings, and the array methods the components use (`filter`, `map`, `find`), each with its contract. `FindIndex` is the first-match search that defines `find`; the components do not call `findIndex` themselves.
- `Shifts`: the four shifts and their labels, the order of the activity tabs, and the `shifts` flag object. The flags are an ordered list of entries, because the object's key order decides the order of the time rows. Also the per-shift times, the checkbox and time defaults the form falls back to, and the time rows.
- `OrderForm`: the order form record, the one-field change the page applies, the two shift handlers of the form section, and the initial and cleared forms.
- `Activities`: the activity list, the per-shift drafts, the enabled-shift list and the active shift tab (class `ActivityPlanner`), and the per-shift and total employee sums.
- `Expenses`: the expense list and the add form (class `ExpenseLedger`), the date payload selected by the cost type, removal, display precedence and activity-name lookup.
- `SollPlan`: the plan history, the edit buffer and the editing id (class `PlanEditor`), with saving, editing and deactivating.
- `Tabs`: the tab navigation's click guard and active-tab predicates.
- `Session`: the page state (class `OrderSession`) with form changes, submission, cancellation, tab clicks and the list callbacks.

The clock, id generation, date formatting and number parsing are parameters:

- `freshId` stands for `Date.now().toString()`.
- `now` stands for `new Date()` or its German locale string.
- `formatDay`, `formatMonth`, `showDay` and `showMonth` stand for the date-fns formatting calls.
- `parse` stands for `parseFloat`.

The code has none of the following guards, and the model follows it:

- Deactivating a plan re-stamps `deactivatedAt` on every call.
- Saving an edit of a deactivated plan makes it active again and drops its deactivation stamp.
- Nothing checks date order or overlapping plans.

Truthiness is modelled as the code has it:

- An empty `editingPlan` counts as "not editing".
- An empty stored `createdAt` falls back to `now`.
- An empty time falls back to the default.

## Model

| member | source | states |
|---|---|---|
| Common.Filter | src/components/TaetigkeitSection.tsx:80-82 | the result is no longer than the input, holds only elements of the input that pass, and holds every element that passes |
| Common.FindIndex | src/components/ExpenseSection.tsx:167-170 | the result is the first position whose element matches, or none exactly when no element matches |
| Common.Find | src/components/ExpenseSection.tsx:168 | the result is none exactly when no element matches; otherwise it is the element at a matching position with no match before it |
| Common.FilterCounts | src/components/TaetigkeitSection.tsx:66-68 | filtering keeps every occurrence of a kept element and none of a dropped one |
| Common.FilterAppend | src/components/TaetigkeitSection.tsx:80-82 | filtering a concatenation concatenates the filtered parts, so order is kept |
| Common.FilterSpec | src/components/TaetigkeitSection.tsx:66-68 | a filter keeps every occurrence of a kept element and none of a dropped one, keeps order across a concatenation, and is the identity when nothing is dropped |
| Shifts.LabelInjective | src/components/TaetigkeitSection.tsx:31-34 | distinct shifts carry distinct labels |
| Shifts.LookupFlag | src/components/AuftragFormSection.tsx:90 | a flag is undefined exactly when no entry has the key; a found flag is that of an entry with the key |
| Shifts.SetFlagLookup | src/components/AuftragFormSection.tsx:30 | spreading one flag into the object stores it and leaves every other shift's flag as it was |
| Shifts.SetFlagKeys | src/components/AuftragFormSection.tsx:30 | spreading one flag into the object keeps the key order, appends a new key last, and keeps keys distinct |
| Shifts.CheckboxSpec | src/components/AuftragFormSection.tsx:81-90 | a checkbox shows the stored flag (a stored false stays unchecked); only an undefined flag falls back to checked for Früh and Tag and unchecked for Spät and Nacht |
| Shifts.SetTimeSpec | src/components/AuftragFormSection.tsx:35-38 | spreading one time field changes that field of that shift only |
| Shifts.ShownTime | src/components/AuftragFormSection.tsx:117-136 | a shown time is never empty: the stored one when non-empty, else 06:00/08:00/14:00/22:00 (from), 14:00/16:30/22:00/06:00 (to), 35:00 (pause) |
| Shifts.EnabledFlagsSpec | src/components/AuftragFormSection.tsx:105-106 | with distinct keys, a shift has an enabled entry exactly when its flag is stored as true |
| Shifts.TimeRowsSpec | src/components/AuftragFormSection.tsx:105-106 | with distinct keys, a shift has a time row exactly when its flag is true, and each row shows that shift's times |
| OrderForm.FormChangeSpec | src/pages/Index.tsx:53-55 | a form change replaces exactly the named field; all other fields are unchanged |
| OrderForm.ShiftChangeSpec | src/components/AuftragFormSection.tsx:29-32 | ticking a shift sets that shift's flag only; other flags, the times and the text fields are unchanged |
| OrderForm.ShiftTimeChangeSpec | src/components/AuftragFormSection.tsx:34-40 | editing one time of one shift changes that time only; flags and text fields are unchanged |
| OrderForm.InitialFormSpec | src/pages/Index.tsx:16-35 | the initial form stores exactly the checkbox defaults and the default times, with distinct keys |
| OrderForm.ClearedFormSpec | src/pages/Index.tsx:79-98 | the cleared form has empty texts, every flag false and every time "", so it shows no time row and every time falls back to its default |
| Activities.UpdateDraftSpec | src/components/TaetigkeitSection.tsx:70-78 | typing into a draft sets one field of one shift's draft; all other fields and shifts are unchanged |
| Activities.WithoutActivitySpec | src/components/TaetigkeitSection.tsx:66-68 | removal drops every activity with the id, keeps every other occurrence in order, and is the identity for an unknown id |
| Activities.TotalAppend | src/components/TaetigkeitSection.tsx:84-86 | the employee total over a concatenation is the sum of the totals |
| Activities.AddActivityTotals | src/components/TaetigkeitSection.tsx:80-90 | appending an activity raises the total and its own shift's sum by its employees and leaves every other shift's list and sum unchanged |
| Activities.AddToShiftSums | src/components/TaetigkeitSection.tsx:45-64 | an activity added under a shift raises that shift's sum by its employees and leaves the other three shifts' sums unchanged |
| Activities.TotalIsSumOfShifts | src/components/TaetigkeitSection.tsx:84-90 | when every activity carries a shift label, the four shift sums add up to the total |
| Activities.GetEnabledShifts | src/components/TaetigkeitSection.tsx:29-36 | a shift is listed exactly when its flag is true, in strictly increasing order Früh, Tag, Spät, Nacht |
| Activities.ActivityPlanner.constructor | src/components/TaetigkeitSection.tsx:25-27 | no shift selected, no drafts |
| Activities.ActivityPlanner.InitActiveShift | src/components/TaetigkeitSection.tsx:40-43 | a selected shift is kept; with none selected, the first enabled shift is selected, and none only when no shift is enabled |
| Activities.ActivityPlanner.SelectShift | src/components/TaetigkeitSection.tsx:121 | the clicked shift tab becomes the active shift |
| Activities.ActivityPlanner.AddActivity | src/components/TaetigkeitSection.tsx:45-64 | an incomplete draft changes nothing; otherwise one activity tagged with the shift's label is appended and only that shift's draft is reset to empty strings |
| Activities.ActivityPlanner.RemoveActivity | src/components/TaetigkeitSection.tsx:66-68 | the list becomes the filtered list |
| Activities.ActivityPlanner.UpdateNewActivity | src/components/TaetigkeitSection.tsx:70-78 | the drafts become the one-field update |
| Expenses.PayloadSpec | src/components/ExpenseSection.tsx:98-119 | a day exactly for 'Pro Tag' (today by default), a month exactly for 'Pro Monat' (this month by default), a period exactly for 'Beliebiger Zeitraum' with both ends set; 'Einmalige Kosten' and 'Pro Woche' carry no date |
| Expenses.DeriveDateInfo | src/components/ExpenseSection.tsx:98-119 | the date fields it fills fit the cost type as stated by the payload predicate |
| Expenses.BuildExpenseSpec | src/components/ExpenseSection.tsx:121-133 | the activity id is stored exactly for per-employee costs, and the expense carries exactly the given date fields |
| Expenses.WithoutExpenseSpec | src/components/ExpenseSection.tsx:154-156 | removal drops every expense with the id, keeps the others in order, and is the identity for an unknown id |
| Expenses.DisplayPrecedence | src/components/ExpenseSection.tsx:158-165 | a day wins over a month, a month over a period, a period (shown as its two days joined by " - ") over the cost type, and an expense with none shows its cost type |
| Expenses.DisplayOfAddedExpense | src/components/ExpenseSection.tsx:98-165 | an added expense is displayed with the date its cost type selected, or with the cost type's name when it has none |
| Expenses.ActivityNameSpec | src/components/ExpenseSection.tsx:167-170 | the name of the first activity with the id |
| Expenses.ActivityNameMissing | src/components/ExpenseSection.tsx:167-170 | "" when no activity has the id |
| Expenses.ExpenseLedger.constructor | src/components/ExpenseSection.tsx:39-65 | the add form starts at its defaults |
| Expenses.ExpenseLedger.AddExpense | src/components/ExpenseSection.tsx:93-151 | without description or cost nothing changes; otherwise exactly one expense built from the draft with a fitting date payload is appended, the earlier ones are unchanged, and the form is reset to its defaults |
| Expenses.ExpenseLedger.RemoveExpense | src/components/ExpenseSection.tsx:154-156 | the list becomes the filtered list |
| SollPlan.UpdateEntriesSpec | src/components/SollPlanSection.tsx:58-65 | only the named field of the rows with the id changes; length, order and ids are kept |
| SollPlan.RemoveEntriesSpec | src/components/SollPlanSection.tsx:67-72 | exactly the rows with the id are dropped; the rest keep their order |
| SollPlan.CreatedAtForSpec | src/components/SollPlanSection.tsx:84-86 | an edited plan keeps the creation stamp of the first plan with its id, falling back to now when none is found or it is empty |
| SollPlan.SaveNewPlan | src/components/SollPlanSection.tsx:79-94 | creating prepends one active, never-updated plan with the buffer's dates and rows; the old plans follow in order |
| SollPlan.SaveEditedPlan | src/components/SollPlanSection.tsx:79-92 | committing an edit replaces the plans with that id in place, keeping id and creation stamp, stamping the update, active and without deactivation stamp; length and every other plan unchanged |
| SollPlan.DeactivateSpec | src/components/SollPlanSection.tsx:114-124 | only status and deactivation stamp of the plans with the id change; length, order and other plans are kept |
| SollPlan.DeactivateTwice | src/components/SollPlanSection.tsx:114-124 | a repeated deactivation re-stamps: the result is that of the second call alone |
| SollPlan.EditThenSave | src/components/SollPlanSection.tsx:74-112 | opening a plan and saving it unchanged gives the same plan at the same position, active, stamped as updated, without deactivation stamp |
| SollPlan.EditDeactivateSave | src/components/SollPlanSection.tsx:79-124 | a plan deactivated while open in the editor comes back active and without deactivation stamp when the edit is saved |
| SollPlan.PlanEditor.constructor | src/components/SollPlanSection.tsx:37-42 | empty buffer, not editing |
| SollPlan.PlanEditor.AddPlanRow | src/components/SollPlanSection.tsx:44-56 | one row (qualification 'Keine', 1 employee, cost 25.50) is appended; the dates are untouched |
| SollPlan.PlanEditor.UpdatePlanEntry | src/components/SollPlanSection.tsx:58-65 | the buffer's rows become the field update; the dates are untouched |
| SollPlan.PlanEditor.RemovePlanEntry | src/components/SollPlanSection.tsx:67-72 | the buffer's rows become the filtered rows; the dates are untouched |
| SollPlan.PlanEditor.SetStartDate | src/components/SollPlanSection.tsx:148 | only the start date of the buffer changes |
| SollPlan.PlanEditor.SetEndDate | src/components/SollPlanSection.tsx:158 | only the end date of the buffer changes |
| SollPlan.PlanEditor.ResetForm | src/components/SollPlanSection.tsx:100-103 | empty buffer, not editing |
| SollPlan.PlanEditor.SavePlan | src/components/SollPlanSection.tsx:74-98 | without both dates and a row nothing changes at all; otherwise the history becomes the created or committed one, the buffer is emptied and editing ends |
| SollPlan.PlanEditor.EditPlan | src/components/SollPlanSection.tsx:105-112 | the buffer holds the plan's dates and rows and the editing id is the plan's |
| SollPlan.PlanEditor.DeactivatePlan | src/components/SollPlanSection.tsx:114-124 | the history becomes the deactivated history |
| Tabs.TabNavigationSpec | src/components/TabNavigation.tsx:15-32 | the order tab is always requested; the plan tab is requested and enabled exactly when planning is enabled; each button is shown active as its predicate says, never both |
| Session.OrderSession.constructor | src/pages/Index.tsx:14-50 | order tab open, planning disabled, the initial form, no base plan, no plans; the session invariant (plan tab only while planning is enabled, distinct shift keys) holds |
| Session.OrderSession.HandleFormChange | src/pages/Index.tsx:53-55 | called only with the order tab open, where the form is rendered (lines 118-170): the form takes the one-field change; a new `shifts` value is an object, so its keys are distinct, and the session invariant holds |
| Session.OrderSession.ToggleShift | src/components/AuftragFormSection.tsx:29-32 | through the page's change handler, exactly that shift's flag changes and the shift keys stay distinct |
| Session.OrderSession.EditShiftTime | src/components/AuftragFormSection.tsx:34-40 | through the page's change handler, exactly that time changes |
| Session.OrderSession.HandleFormSubmit | src/pages/Index.tsx:57-76 | called only with the order tab open: the base plan holds the order name, cost centre, fixed dates 2025-01-27 to 2025-03-28 and the current activities; planning is enabled and the plan tab opens; form and lists are untouched |
| Session.OrderSession.ResetForm | src/pages/Index.tsx:78-105 | called only with the order tab open: cleared form, empty lists, no base plan, planning disabled, order tab open |
| Session.OrderSession.ClickTab | src/pages/Index.tsx:112-116 | the tab switches only to a requested tab, so the plan tab is open only while planning is enabled |
| Session.OrderSession.SetActivities | src/pages/Index.tsx:148 | called only with the order tab open: the activity list becomes the section's list |
| Session.OrderSession.SetExpenses | src/pages/Index.tsx:144 | called only with the order tab open: the expense list becomes the section's list |
| Session.OrderSession.SetPlans | src/pages/Index.tsx:181-185 | called only with the plan tab open: the plan history becomes the section's history |

## Left out

- Markup, styling, the date-picker popover flags and the edit buttons that have no handler. These are presentation only, with two exceptions: the page mounts a tab's sections only while that tab is open, and the section buttons inside the order form submit it (next two lines).
- SollPlan.PlanEditor, Activities.ActivityPlanner, Expenses.ExpenseLedger: the page mounts the order-entry sections only while the order tab is open, and the plan section only while the plan tab is open (src/pages/Index.tsx:118-188). Every switch of the open tab therefore unmounts one side, and that side's local state starts over: the per-shift drafts and the selected shift, the expense add form, and the plan edit buffer with the editing id. This includes the switch made by `handleFormSubmit`. The model keeps these three objects apart from `Session.OrderSession` and does not reset them on a tab change. In the model, a new constructor call stands for a remount. Without one, a plan opened with `EditPlan` before leaving the plan tab is still in the buffer when the user comes back, whereas the app's buffer is empty and its `savePlan` does nothing.
- Session.OrderSession.HandleFormSubmit, Expenses.ExpenseLedger.AddExpense, Expenses.ExpenseLedger.RemoveExpense, Activities.ActivityPlanner.AddActivity, Activities.ActivityPlanner.RemoveActivity: the expense and activity sections sit inside the page's `<form onSubmit={handleFormSubmit}>` (src/pages/Index.tsx:140-165). Their buttons set no `type`: "Ausgabe hinzufügen" and the remove and edit buttons (src/components/ExpenseSection.tsx:436-441, 487-500), and "Hinzufügen" and the remove and edit buttons (src/components/TaetigkeitSection.tsx:175-181, 204-218). The page itself marks "Abbrechen" as `type="button"` (src/pages/Index.tsx:154), so the button component, which is not part of this model, sets no type of its own. A button with no type submits its form. Each click on one of these buttons therefore runs its handler and then `handleFormSubmit`: the base plan is snapshotted, planning is enabled and the plan tab opens. This happens even when the handler's guard rejects the draft, and pressing Enter in an input of the form does the same. The model keeps the section operations and the submission separate. It does not capture that adding or removing an expense or an activity also submits the order.
- The header and the budget section: they hold no logic beyond passing field values through to the page's change handler.
- The toast shown on submission: a side effect with no state.
- The sample activities and expenses the page starts with: their shape does not match the records the sections use, so the constructor takes the initial lists as parameters.
- The missing props in the page's wiring. The page does not pass the order form to the activity section, nor the activity list to the expense section. As written, the code throws at these reads. `formData.shifts?.fruehschicht` throws on every render of the activity section (src/components/TaetigkeitSection.tsx:31). `activities.map` throws once the per-employee box is ticked (src/components/ExpenseSection.tsx:394). `activities.find` throws for any per-employee expense (src/components/ExpenseSection.tsx:168). The model describes the sections as if the props were passed, and gives each section the values it reads as parameters.
- Ids and timestamps: they come from the clock and are parameters. Nothing in the code makes ids unique, and the model does not assume it.
- Date formatting and parsing: date-fns, locales and time zones. The formatters are uninterpreted function parameters; only the choice and the precedence of the dates are modelled.
- `formatDate` of the plan section: it is a locale formatting call only.
- Number parsing: `parseFloat`, NaN and the `|| 0` coercion of the plan table inputs. Activity numbers go through an uninterpreted `parse`, and plan row values arrive already parsed, as `real`. Floating-point rounding of the sums is not modelled.
- The expense form's individual field setters: the draft is a public field of `ExpenseLedger` that the form writes directly.
- SollPlan.PlanEditor.UpdatePlanEntry: only the four fields the table edits are modelled; a change of a row's `id` field is not.
- Activities.ActivityPlanner.AddActivity: the shift label is derived from the shift key rather than passed separately, as every call site passes the matching pair.
- Activities.ActivityPlanner.InitActiveShift: models the check made on one render; repeated renders repeat the same step.
- Expenses: the optional `category`, `supplier`, `priority` and `approvalStatus` fields are always set by `addExpense`, so they are modelled as plain strings.
- The activity section's render with no enabled shift shows only a notice; it is covered by Activities.GetEnabledShifts returning an empty list.
