/** The page session: the order form, the activity, expense and plan lists the
    sections edit, the base plan snapshotted on submission, and which tab is open. */
module Session {
  import opened Common
  import opened Shifts
  import opened OrderForm
  import opened Activities
  import opened Expenses
  import opened SollPlan
  import opened Tabs

  /** The staffing baseline snapshotted when the order is submitted. */
  datatype BasePlan = BasePlan(
    auftragsname: string,
    kostenstelle: string,
    startDate: string,
    endDate: string,
    activities: seq<Activity>)

  const BaseStart := "2025-01-27"
  const BaseEnd := "2025-03-28"

  /** The form, its handlers and the order-entry sections exist only while the order tab
      is open, and the plan section only while the plan tab is open; each handler requires
      the tab under which the page renders its caller. */
  class OrderSession {
    var activeTab: Tab
    var isPlanningEnabled: bool
    var formData: FormData
    var activities: seq<Activity>
    var expenses: seq<Expense>
    var basePlan: Option<BasePlan>
    var plans: seq<Plan>

    /** The plan tab is open only while planning is enabled, and the shift flags form an
        object: no key occurs twice. */
    ghost predicate Valid()
      reads this
    {
      && (activeTab == SollPlanTab ==> isPlanningEnabled)
      && UniqueKeys(formData.shifts)
    }

    /** The page as it opens; the sample activities and expenses it starts with are given. */
    constructor (activities: seq<Activity>, expenses: seq<Expense>)
      ensures Valid()
      ensures activeTab == Auftragserfassung && !isPlanningEnabled && formData == InitialForm
      ensures this.activities == activities && this.expenses == expenses
      ensures basePlan == None && plans == []
    {
      activeTab := Auftragserfassung;
      isPlanningEnabled := false;
      formData := InitialForm;
      this.activities := activities;
      this.expenses := expenses;
      basePlan := None;
      plans := [];
      assert UniqueKeys(InitialForm.shifts) by {
        InitialFormSpec();
      }
    }

    /** `handleFormChange(field, value)`; a new `shifts` value is an object, so its keys are distinct. */
    method HandleFormChange(c: FormChange)
      requires Valid() && activeTab == Auftragserfassung
      requires c.SetShifts? ==> UniqueKeys(c.flags)
      modifies this`formData
      ensures Valid()
      ensures formData == ApplyFormChange(old(formData), c)
    {
      formData := ApplyFormChange(formData, c);
    }

    /** A shift checkbox of the order form, reported through `handleFormChange`:
        exactly that shift's flag changes. */
    method ToggleShift(k: ShiftKey, checked: bool)
      requires Valid() && activeTab == Auftragserfassung
      modifies this`formData
      ensures Valid()
      ensures LookupFlag(formData.shifts, k) == Some(checked)
      ensures forall k' :: k' != k ==> LookupFlag(formData.shifts, k') == LookupFlag(old(formData).shifts, k')
      ensures formData.shiftTimes == old(formData).shiftTimes
      ensures forall t :: TextOf(formData, t) == TextOf(old(formData), t)
    {
      ShiftChangeSpec(formData, k, checked);
      HandleFormChange(ShiftChange(formData, k, checked));
    }

    /** A shift time input of the order form, reported through `handleFormChange`:
        exactly that time changes. */
    method EditShiftTime(k: ShiftKey, field: TimeField, value: string)
      requires Valid() && activeTab == Auftragserfassung
      modifies this`formData
      ensures Valid()
      ensures forall k', f' :: TimeOf(formData.shiftTimes, k', f') ==
                if k' == k && f' == field then Some(value) else TimeOf(old(formData).shiftTimes, k', f')
      ensures formData.shifts == old(formData).shifts
      ensures forall t :: TextOf(formData, t) == TextOf(old(formData), t)
    {
      ShiftTimeChangeSpec(formData, k, field, value);
      HandleFormChange(ShiftTimeChange(formData, k, field, value));
    }

    /** `handleFormSubmit`: snapshots the base plan, enables planning and opens the plan tab;
        the form and the lists are left as they are. */
    method HandleFormSubmit()
      requires Valid() && activeTab == Auftragserfassung
      modifies this`basePlan, this`isPlanningEnabled, this`activeTab
      ensures Valid()
      ensures basePlan == Some(BasePlan(formData.auftragsname, formData.kostenstelle, BaseStart, BaseEnd, activities))
      ensures isPlanningEnabled && activeTab == SollPlanTab
    {
      basePlan := Some(BasePlan(formData.auftragsname, formData.kostenstelle, BaseStart, BaseEnd, activities));
      isPlanningEnabled := true;
      activeTab := SollPlanTab;
    }

    /** `resetForm`: clears the form, every list and the base plan, disables planning and
        returns to order entry. */
    method ResetForm()
      requires activeTab == Auftragserfassung
      modifies this
      ensures Valid()
      ensures formData == ClearedForm
      ensures activities == [] && expenses == [] && plans == [] && basePlan == None
      ensures !isPlanningEnabled && activeTab == Auftragserfassung
    {
      formData := ClearedForm;
      activities := [];
      expenses := [];
      basePlan := None;
      plans := [];
      isPlanningEnabled := false;
      activeTab := Auftragserfassung;
      assert UniqueKeys(ClearedForm.shifts) by {
        ClearedFormSpec();
      }
    }

    /** A click on a tab button, which switches tabs only when the button requests it. */
    method ClickTab(button: TabButton)
      requires Valid()
      modifies this`activeTab
      ensures Valid()
      ensures activeTab == match RequestedTab(button, isPlanningEnabled)
                           case Some(t) => t
                           case None => old(activeTab)
    {
      var requested := RequestedTab(button, isPlanningEnabled);
      if requested.Some? {
        activeTab := requested.value;
      }
    }

    /** The activity section's `onActivitiesChange`. */
    method SetActivities(acts: seq<Activity>)
      requires activeTab == Auftragserfassung
      modifies this`activities
      ensures activities == acts
    {
      activities := acts;
    }

    /** The expense section's `onExpensesChange`. */
    method SetExpenses(es: seq<Expense>)
      requires activeTab == Auftragserfassung
      modifies this`expenses
      ensures expenses == es
    {
      expenses := es;
    }

    /** The plan section's `onPlansChange`. */
    method SetPlans(ps: seq<Plan>)
      requires activeTab == SollPlanTab
      modifies this`plans
      ensures plans == ps
    {
      plans := ps;
    }
  }
}
