/** The deviation-plan ("Soll-Plan") history: plans are created at the front of
    the history from an edit buffer, edited in place (keeping id and creation
    stamp), and deactivated by id; the buffer holds the dates and entry rows of
    the plan being written. */
module SollPlan {
  import opened Common

  datatype PlanStatus = Aktiv | Deaktiviert

  datatype PlanEntry = PlanEntry(id: string, activity: string, qualification: string, employees: real, cost: real)

  /** Timestamps are the locale strings the app stamps with; `None` is an absent field. */
  datatype Plan = Plan(
    id: string,
    startDate: string,
    endDate: string,
    status: PlanStatus,
    createdAt: string,
    updatedAt: Option<string>,
    deactivatedAt: Option<string>,
    entries: seq<PlanEntry>)

  /** The edit buffer (`newPlan`). */
  datatype PlanDraft = PlanDraft(startDate: string, endDate: string, entries: seq<PlanEntry>)

  const EmptyDraft := PlanDraft("", "", [])

  /** The row `addPlanRow` appends. */
  function NewRow(id: string): PlanEntry
  {
    PlanEntry(id, "", "Keine", 1.0, 25.5)
  }

  /** `updatePlanEntry(entryId, field, value)` for the four fields the table edits. */
  datatype EntryChange =
    | SetActivity(activity: string)
    | SetQualification(qualification: string)
    | SetEmployees(employees: real)
    | SetCost(cost: real)

  function ApplyEntryChange(e: PlanEntry, c: EntryChange): PlanEntry
  {
    match c
    case SetActivity(v) => e.(activity := v)
    case SetQualification(v) => e.(qualification := v)
    case SetEmployees(v) => e.(employees := v)
    case SetCost(v) => e.(cost := v)
  }

  function UpdateEntries(entries: seq<PlanEntry>, entryId: string, c: EntryChange): seq<PlanEntry>
  {
    Map(entries, (e: PlanEntry) => if e.id == entryId then ApplyEntryChange(e, c) else e)
  }

  /** Updating a row changes the named field of the rows with that id, and nothing else:
      the buffer keeps its length, order and ids. */
  lemma UpdateEntriesSpec(entries: seq<PlanEntry>, entryId: string, c: EntryChange)
    ensures |UpdateEntries(entries, entryId, c)| == |entries|
    ensures forall i :: 0 <= i < |entries| ==>
              var e, r := entries[i], UpdateEntries(entries, entryId, c)[i];
              && r.id == e.id
              && (e.id != entryId ==> r == e)
              && (e.id == entryId ==>
                    && r.activity == (if c.SetActivity? then c.activity else e.activity)
                    && r.qualification == (if c.SetQualification? then c.qualification else e.qualification)
                    && r.employees == (if c.SetEmployees? then c.employees else e.employees)
                    && r.cost == (if c.SetCost? then c.cost else e.cost))
  {
  }

  function RemoveEntries(entries: seq<PlanEntry>, entryId: string): seq<PlanEntry>
  {
    Filter(entries, (e: PlanEntry) => e.id != entryId)
  }

  /** Removing a row drops exactly the rows with that id and keeps the others in order. */
  lemma RemoveEntriesSpec(entries: seq<PlanEntry>, entryId: string, more: seq<PlanEntry>)
    ensures forall e :: multiset(RemoveEntries(entries, entryId))[e] == if e.id != entryId then multiset(entries)[e] else 0
    ensures RemoveEntries(entries + more, entryId) == RemoveEntries(entries, entryId) + RemoveEntries(more, entryId)
    ensures (forall i :: 0 <= i < |entries| ==> entries[i].id != entryId) ==> RemoveEntries(entries, entryId) == entries
  {
    FilterSpec(entries, more, (e: PlanEntry) => e.id != entryId);
  }

  /** The plan being edited: `editingPlan` when it is a non-empty string (JavaScript truthiness). */
  function EditingId(editing: Option<string>): Option<string>
  {
    if Truthy(editing) then editing else None
  }

  /** The guard of `savePlan`: both dates set and at least one row. */
  predicate CanSave(d: PlanDraft)
  {
    d.startDate != "" && d.endDate != "" && |d.entries| > 0
  }

  /** The creation stamp an edited plan keeps: that of the first plan with the id,
      or `now` when there is none or it is empty. */
  function CreatedAtFor(plans: seq<Plan>, id: string, now: string): string
  {
    match Find(plans, (p: Plan) => p.id == id)
    case Some(p) => if p.createdAt != "" then p.createdAt else now
    case None => now
  }

  lemma CreatedAtForSpec(plans: seq<Plan>, id: string, now: string)
    ensures (forall i :: 0 <= i < |plans| ==> plans[i].id != id) ==> CreatedAtFor(plans, id, now) == now
    ensures forall i :: 0 <= i < |plans| && plans[i].id == id && (forall j :: 0 <= j < i ==> plans[j].id != id) ==>
              CreatedAtFor(plans, id, now) == if plans[i].createdAt != "" then plans[i].createdAt else now
  {
    var r := FindIndex(plans, (p: Plan) => p.id == id);
    forall i | 0 <= i < |plans| && plans[i].id == id && (forall j :: 0 <= j < i ==> plans[j].id != id)
      ensures r == Some(i)
    {
    }
  }

  /** The plan `savePlan` builds: a fresh one, or the edited one with its id and creation stamp. */
  function BuildPlan(plans: seq<Plan>, d: PlanDraft, editing: Option<string>, freshId: string, now: string): Plan
  {
    match EditingId(editing)
    case Some(id) => Plan(id, d.startDate, d.endDate, Aktiv, CreatedAtFor(plans, id, now), Some(now), None, d.entries)
    case None => Plan(freshId, d.startDate, d.endDate, Aktiv, now, None, None, d.entries)
  }

  /** `plans.map(p => p.id === id ? plan : p)`. */
  function ReplacePlan(plans: seq<Plan>, id: string, plan: Plan): seq<Plan>
  {
    Map(plans, (p: Plan) => if p.id == id then plan else p)
  }

  /** The history after a successful `savePlan`. */
  function SavedPlans(plans: seq<Plan>, d: PlanDraft, editing: Option<string>, freshId: string, now: string): seq<Plan>
  {
    var plan := BuildPlan(plans, d, editing, freshId, now);
    match EditingId(editing)
    case Some(id) => ReplacePlan(plans, id, plan)
    case None => [plan] + plans
  }

  /** Creating puts one active, never-edited plan with the buffer's contents at the front,
      followed by the old history in its order. */
  lemma SaveNewPlan(plans: seq<Plan>, d: PlanDraft, editing: Option<string>, freshId: string, now: string)
    requires EditingId(editing).None?
    ensures var r := SavedPlans(plans, d, editing, freshId, now);
      && |r| == |plans| + 1
      && r[1..] == plans
      && r[0].id == freshId && r[0].status == Aktiv && r[0].createdAt == now
      && r[0].updatedAt.None? && r[0].deactivatedAt.None?
      && r[0].startDate == d.startDate && r[0].endDate == d.endDate && r[0].entries == d.entries
  {
  }

  /** Committing an edit replaces the plans with the edited id where they stand: same
      length, every other plan unchanged, and the edited one keeps its id and creation
      stamp, is stamped as updated, is active and carries no deactivation stamp. */
  lemma SaveEditedPlan(plans: seq<Plan>, d: PlanDraft, editing: Option<string>, freshId: string, now: string)
    requires EditingId(editing).Some?
    ensures var id, r := editing.value, SavedPlans(plans, d, editing, freshId, now);
      && |r| == |plans|
      && forall i :: 0 <= i < |plans| ==>
           && (plans[i].id != id ==> r[i] == plans[i])
           && (plans[i].id == id ==>
                 r[i] == Plan(id, d.startDate, d.endDate, Aktiv, CreatedAtFor(plans, id, now), Some(now), None, d.entries))
  {
  }

  /** `deactivatePlan`: marks every plan with the id as deactivated, stamped `now`. */
  function Deactivate(plans: seq<Plan>, id: string, now: string): seq<Plan>
  {
    Map(plans, (p: Plan) => if p.id == id then p.(status := Deaktiviert, deactivatedAt := Some(now)) else p)
  }

  /** Deactivation changes only the status and stamp of the plans with the id; order,
      length and every other plan are unchanged. */
  lemma DeactivateSpec(plans: seq<Plan>, id: string, now: string)
    ensures |Deactivate(plans, id, now)| == |plans|
    ensures forall i :: 0 <= i < |plans| ==>
              Deactivate(plans, id, now)[i] ==
              if plans[i].id == id then plans[i].(status := Deaktiviert, deactivatedAt := Some(now)) else plans[i]
  {
  }

  /** There is no guard against deactivating twice: the second call re-stamps. */
  lemma DeactivateTwice(plans: seq<Plan>, id: string, first: string, second: string)
    ensures Deactivate(Deactivate(plans, id, first), id, second) == Deactivate(plans, id, second)
  {
    var once := Deactivate(plans, id, first);
    var twice := Deactivate(once, id, second);
    var direct := Deactivate(plans, id, second);
    assert |twice| == |direct|;
    forall i | 0 <= i < |twice| ensures twice[i] == direct[i] {
      assert once[i].id == plans[i].id;
    }
  }

  /** `editPlan`: the buffer `editPlan` loads from a plan. */
  function LoadDraft(plan: Plan): PlanDraft
  {
    PlanDraft(plan.startDate, plan.endDate, plan.entries)
  }

  /** Opening a plan for editing and saving it unchanged gives back the same plan, now
      active, stamped as updated and without a deactivation stamp, at the same position. */
  lemma EditThenSave(plans: seq<Plan>, i: nat, freshId: string, now: string)
    requires i < |plans| && plans[i].id != "" && plans[i].createdAt != ""
    requires forall j :: 0 <= j < i ==> plans[j].id != plans[i].id
    ensures var r := SavedPlans(plans, LoadDraft(plans[i]), Some(plans[i].id), freshId, now);
      && |r| == |plans|
      && r[i] == plans[i].(status := Aktiv, updatedAt := Some(now), deactivatedAt := None)
      && forall j :: 0 <= j < |plans| && plans[j].id != plans[i].id ==> r[j] == plans[j]
  {
    CreatedAtForSpec(plans, plans[i].id, now);
    SaveEditedPlan(plans, LoadDraft(plans[i]), Some(plans[i].id), freshId, now);
  }

  /** A plan deactivated while it is open in the editor comes back active, without a
      deactivation stamp, when the edit is saved. */
  lemma EditDeactivateSave(plans: seq<Plan>, i: nat, freshId: string, deactivatedAt: string, now: string)
    requires i < |plans| && plans[i].id != "" && plans[i].createdAt != ""
    requires forall j :: 0 <= j < i ==> plans[j].id != plans[i].id
    ensures var r := SavedPlans(Deactivate(plans, plans[i].id, deactivatedAt), LoadDraft(plans[i]),
                                Some(plans[i].id), freshId, now);
      && r[i] == plans[i].(status := Aktiv, updatedAt := Some(now), deactivatedAt := None)
  {
    var mid := Deactivate(plans, plans[i].id, deactivatedAt);
    DeactivateSpec(plans, plans[i].id, deactivatedAt);
    assert mid[i] == plans[i].(status := Deaktiviert, deactivatedAt := Some(deactivatedAt));
    forall j | 0 <= j < i ensures mid[j].id != mid[i].id {
    }
    EditThenSave(mid, i, freshId, now);
  }

  /** The plan section: the history it replaces through its callback, the edit buffer
      and the id of the plan being edited. */
  class PlanEditor {
    var plans: seq<Plan>
    var draft: PlanDraft
    var editingPlan: Option<string>

    constructor (plans: seq<Plan>)
      ensures this.plans == plans && draft == EmptyDraft && editingPlan == None
    {
      this.plans := plans;
      draft := EmptyDraft;
      editingPlan := None;
    }

    /** `addPlanRow`: appends a default row; the dates stay as they are. */
    method AddPlanRow(freshId: string)
      modifies this`draft
      ensures draft == old(draft).(entries := old(draft).entries + [NewRow(freshId)])
    {
      draft := draft.(entries := draft.entries + [NewRow(freshId)]);
    }

    method UpdatePlanEntry(entryId: string, c: EntryChange)
      modifies this`draft
      ensures draft == old(draft).(entries := UpdateEntries(old(draft).entries, entryId, c))
    {
      draft := draft.(entries := UpdateEntries(draft.entries, entryId, c));
    }

    method RemovePlanEntry(entryId: string)
      modifies this`draft
      ensures draft == old(draft).(entries := RemoveEntries(old(draft).entries, entryId))
    {
      draft := draft.(entries := RemoveEntries(draft.entries, entryId));
    }

    /** The "valid from" date input. */
    method SetStartDate(date: string)
      modifies this`draft
      ensures draft == old(draft).(startDate := date)
    {
      draft := draft.(startDate := date);
    }

    /** The "valid until" date input. */
    method SetEndDate(date: string)
      modifies this`draft
      ensures draft == old(draft).(endDate := date)
    {
      draft := draft.(endDate := date);
    }

    /** `resetForm`: empties the buffer and leaves edit mode. */
    method ResetForm()
      modifies this`draft, this`editingPlan
      ensures draft == EmptyDraft && editingPlan == None
    {
      draft := EmptyDraft;
      editingPlan := None;
    }

    /** `savePlan`: with a complete buffer, creates or commits the plan and resets the
        form; otherwise changes nothing at all. */
    method SavePlan(freshId: string, now: string)
      modifies this
      ensures !CanSave(old(draft)) ==>
                plans == old(plans) && draft == old(draft) && editingPlan == old(editingPlan)
      ensures CanSave(old(draft)) ==>
                && plans == SavedPlans(old(plans), old(draft), old(editingPlan), freshId, now)
                && draft == EmptyDraft && editingPlan == None
    {
      if !CanSave(draft) {
        return;
      }
      var plan := BuildPlan(plans, draft, editingPlan, freshId, now);
      if EditingId(editingPlan).Some? {
        plans := ReplacePlan(plans, editingPlan.value, plan);
      } else {
        plans := [plan] + plans;
      }
      ResetForm();
    }

    /** `editPlan`: loads the plan's dates and rows into the buffer and enters edit mode. */
    method EditPlan(plan: Plan)
      modifies this`draft, this`editingPlan
      ensures draft == LoadDraft(plan) && editingPlan == Some(plan.id)
    {
      editingPlan := Some(plan.id);
      draft := LoadDraft(plan);
    }

    method DeactivatePlan(planId: string, now: string)
      modifies this`plans
      ensures plans == Deactivate(old(plans), planId, now)
    {
      plans := Deactivate(plans, planId, now);
    }
  }
}
