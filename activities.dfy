/** The activity ("Tätigkeit") list of an order: activities are entered per
    enabled shift from a per-shift draft, tagged with the shift's label, and
    summed per shift and in total. */
module Activities {
  import opened Common
  import opened Shifts

  datatype Activity = Activity(id: string, name: string, employees: real, cost: real, shift: string)

  /** `newActivities[shift]`: a field never typed into is undefined. */
  datatype ActivityDraft = ActivityDraft(name: Option<string>, employees: Option<string>, cost: Option<string>)

  datatype DraftField = Name | Employees | Cost

  /** The per-shift drafts, keyed by shift. */
  type Drafts = map<ShiftKey, ActivityDraft>

  const NoDraft := ActivityDraft(None, None, None)

  /** The draft a shift is left with after a successful add. */
  const ClearedDraft := ActivityDraft(Some(""), Some(""), Some(""))

  function DraftFieldOf(d: ActivityDraft, field: DraftField): Option<string>
  {
    match field
    case Name => d.name
    case Employees => d.employees
    case Cost => d.cost
  }

  /** `newActivities?.[k]?.[field]`. */
  function DraftValue(drafts: Drafts, k: ShiftKey, field: DraftField): Option<string>
  {
    if k in drafts then DraftFieldOf(drafts[k], field) else None
  }

  function WithDraftField(d: ActivityDraft, field: DraftField, value: string): ActivityDraft
  {
    match field
    case Name => d.(name := Some(value))
    case Employees => d.(employees := Some(value))
    case Cost => d.(cost := Some(value))
  }

  /** `{ ...newActivities, [k]: { ...newActivities[k], [field]: value } }`. */
  function UpdateDraft(drafts: Drafts, k: ShiftKey, field: DraftField, value: string): Drafts
  {
    drafts[k := WithDraftField(if k in drafts then drafts[k] else NoDraft, field, value)]
  }

  /** Typing into one field of one shift's draft changes that field only. */
  lemma UpdateDraftSpec(drafts: Drafts, k: ShiftKey, field: DraftField, value: string)
    ensures UpdateDraft(drafts, k, field, value).Keys == drafts.Keys + {k}
    ensures forall k', f' ::
              DraftValue(UpdateDraft(drafts, k, field, value), k', f') ==
              if k' == k && f' == field then Some(value) else DraftValue(drafts, k', f')
  {
  }

  /** The guard of `addActivity`: the shift's draft exists and its name, employees and cost are non-empty. */
  predicate DraftComplete(drafts: Drafts, k: ShiftKey)
  {
    k in drafts && Truthy(drafts[k].name) && Truthy(drafts[k].employees) && Truthy(drafts[k].cost)
  }

  /** The activity added from a complete draft; `parse` stands for `parseFloat`. */
  function NewActivity(d: ActivityDraft, id: string, k: ShiftKey, parse: string -> real): Activity
    requires d.name.Some? && d.employees.Some? && d.cost.Some?
  {
    Activity(id, d.name.value, parse(d.employees.value), parse(d.cost.value), Label(k))
  }

  function WithoutActivity(acts: seq<Activity>, id: string): seq<Activity>
  {
    Filter(acts, (a: Activity) => a.id != id)
  }

  /** Removing an activity drops every activity with that id and keeps every
      occurrence of the others, in order; an unknown id changes nothing. */
  lemma WithoutActivitySpec(acts: seq<Activity>, id: string, more: seq<Activity>)
    ensures forall a :: multiset(WithoutActivity(acts, id))[a] == if a.id != id then multiset(acts)[a] else 0
    ensures WithoutActivity(acts + more, id) == WithoutActivity(acts, id) + WithoutActivity(more, id)
    ensures (forall i :: 0 <= i < |acts| ==> acts[i].id != id) ==> WithoutActivity(acts, id) == acts
  {
    FilterSpec(acts, more, (a: Activity) => a.id != id);
  }

  function ActivitiesForShift(acts: seq<Activity>, shiftLabel: string): seq<Activity>
  {
    Filter(acts, (a: Activity) => a.shift == shiftLabel)
  }

  /** `activities.reduce((sum, a) => sum + a.employees, 0)`. */
  function TotalEmployees(acts: seq<Activity>): real
  {
    if acts == [] then 0.0 else TotalEmployees(acts[..|acts| - 1]) + acts[|acts| - 1].employees
  }

  function ShiftEmployees(acts: seq<Activity>, shiftLabel: string): real
  {
    TotalEmployees(ActivitiesForShift(acts, shiftLabel))
  }

  /** The sum over a concatenation is the sum of the sums. */
  lemma {:induction false} TotalAppend(s: seq<Activity>, t: seq<Activity>)
    ensures TotalEmployees(s + t) == TotalEmployees(s) + TotalEmployees(t)
  {
    if t != [] {
      var t' := t[..|t| - 1];
      assert (s + t)[..|s + t| - 1] == s + t';
      TotalAppend(s, t');
    } else {
      assert s + t == s;
    }
  }

  /** Adding an activity raises the total and its own shift's sum by its employees
      and leaves every other shift's list and sum unchanged. */
  lemma AddActivityTotals(acts: seq<Activity>, a: Activity)
    ensures TotalEmployees(acts + [a]) == TotalEmployees(acts) + a.employees
    ensures ActivitiesForShift(acts + [a], a.shift) == ActivitiesForShift(acts, a.shift) + [a]
    ensures ShiftEmployees(acts + [a], a.shift) == ShiftEmployees(acts, a.shift) + a.employees
    ensures forall shiftLabel :: shiftLabel != a.shift ==>
              ActivitiesForShift(acts + [a], shiftLabel) == ActivitiesForShift(acts, shiftLabel) &&
              ShiftEmployees(acts + [a], shiftLabel) == ShiftEmployees(acts, shiftLabel)
  {
    assert (acts + [a])[..|acts + [a]| - 1] == acts;
    FilterSnoc(acts, a, (x: Activity) => x.shift == a.shift);
    TotalAppend(ActivitiesForShift(acts, a.shift), [a]);
    assert TotalEmployees([a]) == TotalEmployees([]) + a.employees;
    forall shiftLabel | shiftLabel != a.shift
      ensures ActivitiesForShift(acts + [a], shiftLabel) == ActivitiesForShift(acts, shiftLabel)
    {
      FilterSnoc(acts, a, (x: Activity) => x.shift == shiftLabel);
    }
  }

  /** Adding an activity under shift `k` raises that shift's sum by its employees and
      leaves the sums of the other shifts unchanged. */
  lemma AddToShiftSums(acts: seq<Activity>, a: Activity, k: ShiftKey)
    requires a.shift == Label(k)
    ensures ShiftEmployees(acts + [a], Label(k)) == ShiftEmployees(acts, Label(k)) + a.employees
    ensures forall k' :: k' != k ==> ShiftEmployees(acts + [a], Label(k')) == ShiftEmployees(acts, Label(k'))
  {
    AddActivityTotals(acts, a);
    forall k' | k' != k
      ensures ShiftEmployees(acts + [a], Label(k')) == ShiftEmployees(acts, Label(k'))
    {
      LabelInjective(k, k');
    }
  }

  predicate IsShiftLabel(shiftLabel: string)
  {
    shiftLabel == Label(Fruehschicht) || shiftLabel == Label(Tagschicht) || shiftLabel == Label(Spaetschicht) || shiftLabel == Label(Nachtschicht)
  }

  function SumOfShifts(acts: seq<Activity>): real
  {
    ShiftEmployees(acts, Label(Fruehschicht)) + ShiftEmployees(acts, Label(Tagschicht))
      + ShiftEmployees(acts, Label(Spaetschicht)) + ShiftEmployees(acts, Label(Nachtschicht))
  }

  /** When every activity is tagged with a shift label, the shift sums add up to the total. */
  lemma {:induction false} TotalIsSumOfShifts(acts: seq<Activity>)
    requires forall i :: 0 <= i < |acts| ==> IsShiftLabel(acts[i].shift)
    ensures TotalEmployees(acts) == SumOfShifts(acts)
  {
    if acts != [] {
      var s, a := acts[..|acts| - 1], acts[|acts| - 1];
      assert acts == s + [a];
      TotalIsSumOfShifts(s);
      AddActivityTotals(s, a);
    }
  }

  /** `getEnabledShifts`: pushes each enabled shift in the order Früh, Tag, Spät, Nacht. */
  method GetEnabledShifts(flags: ShiftFlags) returns (shifts: seq<ShiftKey>)
    ensures forall k :: k in shifts <==> LookupFlag(flags, k) == Some(true)
    ensures forall i, j :: 0 <= i < j < |shifts| ==> Rank(shifts[i]) < Rank(shifts[j])
  {
    shifts := [];
    if LookupFlag(flags, Fruehschicht) == Some(true) {
      shifts := shifts + [Fruehschicht];
    }
    if LookupFlag(flags, Tagschicht) == Some(true) {
      shifts := shifts + [Tagschicht];
    }
    if LookupFlag(flags, Spaetschicht) == Some(true) {
      shifts := shifts + [Spaetschicht];
    }
    if LookupFlag(flags, Nachtschicht) == Some(true) {
      shifts := shifts + [Nachtschicht];
    }
  }

  /** The activity section: the activity list it replaces through its callback,
      the per-shift drafts and the selected shift tab. */
  class ActivityPlanner {
    var activities: seq<Activity>
    var drafts: Drafts
    var activeShift: Option<ShiftKey>

    constructor (activities: seq<Activity>)
      ensures this.activities == activities && drafts == map[] && activeShift == None
    {
      this.activities := activities;
      drafts := map[];
      activeShift := None;
    }

    /** With no shift selected, selects the first enabled shift, if there is one. */
    method InitActiveShift(flags: ShiftFlags)
      modifies this`activeShift
      ensures old(activeShift).Some? ==> activeShift == old(activeShift)
      ensures old(activeShift).None? ==> (activeShift.Some? <==> exists k :: LookupFlag(flags, k) == Some(true))
      ensures old(activeShift).None? && activeShift.Some? ==>
                LookupFlag(flags, activeShift.value) == Some(true) &&
                forall k :: Rank(k) < Rank(activeShift.value) ==> LookupFlag(flags, k) != Some(true)
    {
      var enabled := GetEnabledShifts(flags);
      if activeShift.None? && |enabled| > 0 {
        activeShift := Some(enabled[0]);
        assert enabled[0] in enabled;
        assert LookupFlag(flags, enabled[0]) == Some(true);
      } else if activeShift.None? {
        forall k ensures LookupFlag(flags, k) != Some(true) {
          assert k !in enabled;
        }
      }
    }

    /** Selecting a shift tab. */
    method SelectShift(k: ShiftKey)
      modifies this`activeShift
      ensures activeShift == Some(k)
    {
      activeShift := Some(k);
    }

    /** `addActivity`: appends the drafted activity tagged with the shift's label and
        clears that shift's draft; an incomplete draft changes nothing. */
    method AddActivity(k: ShiftKey, freshId: string, parse: string -> real)
      modifies this`activities, this`drafts
      ensures !DraftComplete(old(drafts), k) ==> activities == old(activities) && drafts == old(drafts)
      ensures DraftComplete(old(drafts), k) ==>
                activities == old(activities) + [NewActivity(old(drafts)[k], freshId, k, parse)] &&
                drafts == old(drafts)[k := ClearedDraft]
    {
      if !DraftComplete(drafts, k) {
        return;
      }
      var activity := NewActivity(drafts[k], freshId, k, parse);
      activities := activities + [activity];
      drafts := drafts[k := ClearedDraft];
    }

    method RemoveActivity(id: string)
      modifies this`activities
      ensures activities == WithoutActivity(old(activities), id)
    {
      activities := WithoutActivity(activities, id);
    }

    method UpdateNewActivity(k: ShiftKey, field: DraftField, value: string)
      modifies this`drafts
      ensures drafts == UpdateDraft(old(drafts), k, field, value)
    {
      drafts := UpdateDraft(drafts, k, field, value);
    }
  }
}
