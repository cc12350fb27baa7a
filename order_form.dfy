/** The order ("Auftrag") form: its record of fields, the single-field change
    the form sections report to the page, the two shift handlers of the order
    form section, and the form's initial and cleared contents. */
module OrderForm {
  import opened Common
  import opened Shifts

  datatype FormData = FormData(
    auftragsname: string,
    aktionszeitraum: string,
    kostenstelle: string,
    auftragsbudget: string,
    kommentar: string,
    aktenzeichen: string,
    shifts: ShiftFlags,
    shiftTimes: ShiftTimes)

  datatype TextField = Auftragsname | Aktionszeitraum | Kostenstelle | Auftragsbudget | Kommentar | Aktenzeichen

  /** A call `onFormChange(field, value)`: a text field, the shift flags or the shift times. */
  datatype FormChange =
    | SetText(field: TextField, text: string)
    | SetShifts(flags: ShiftFlags)
    | SetShiftTimes(times: ShiftTimes)

  function TextOf(f: FormData, t: TextField): string
  {
    match t
    case Auftragsname => f.auftragsname
    case Aktionszeitraum => f.aktionszeitraum
    case Kostenstelle => f.kostenstelle
    case Auftragsbudget => f.auftragsbudget
    case Kommentar => f.kommentar
    case Aktenzeichen => f.aktenzeichen
  }

  /** `{ ...formData, [field]: value }`. */
  function ApplyFormChange(f: FormData, c: FormChange): FormData
  {
    match c
    case SetText(t, v) => (match t
      case Auftragsname => f.(auftragsname := v)
      case Aktionszeitraum => f.(aktionszeitraum := v)
      case Kostenstelle => f.(kostenstelle := v)
      case Auftragsbudget => f.(auftragsbudget := v)
      case Kommentar => f.(kommentar := v)
      case Aktenzeichen => f.(aktenzeichen := v))
    case SetShifts(flags) => f.(shifts := flags)
    case SetShiftTimes(times) => f.(shiftTimes := times)
  }

  /** A form change replaces exactly the field it names; every other field is unchanged. */
  lemma FormChangeSpec(f: FormData, c: FormChange)
    ensures var r := ApplyFormChange(f, c);
      && (forall t :: TextOf(r, t) == if c.SetText? && c.field == t then c.text else TextOf(f, t))
      && r.shifts == (if c.SetShifts? then c.flags else f.shifts)
      && r.shiftTimes == (if c.SetShiftTimes? then c.times else f.shiftTimes)
  {
  }

  /** `handleShiftChange(shift, checked)`: the change it reports for the shift flags. */
  function ShiftChange(f: FormData, k: ShiftKey, checked: bool): FormChange
  {
    SetShifts(SetFlag(f.shifts, k, checked))
  }

  /** `handleShiftTimeChange(shift, field, value)`: the change it reports for the shift times. */
  function ShiftTimeChange(f: FormData, k: ShiftKey, field: TimeField, value: string): FormChange
  {
    SetShiftTimes(SetTime(f.shiftTimes, k, field, value))
  }

  /** Ticking a shift checkbox sets that shift's flag only; the other flags, the
      times and the text fields are unchanged, and the keys stay distinct. */
  lemma ShiftChangeSpec(f: FormData, k: ShiftKey, checked: bool)
    ensures var r := ApplyFormChange(f, ShiftChange(f, k, checked));
      && LookupFlag(r.shifts, k) == Some(checked)
      && (forall k' :: k' != k ==> LookupFlag(r.shifts, k') == LookupFlag(f.shifts, k'))
      && (UniqueKeys(f.shifts) ==> UniqueKeys(r.shifts))
      && r.shiftTimes == f.shiftTimes
      && (forall t :: TextOf(r, t) == TextOf(f, t))
  {
    var flags := SetFlag(f.shifts, k, checked);
    var r := ApplyFormChange(f, ShiftChange(f, k, checked));
    assert r == f.(shifts := flags);
    assert forall k' :: LookupFlag(flags, k') == if k' == k then Some(checked) else LookupFlag(f.shifts, k') by {
      forall k' ensures LookupFlag(flags, k') == if k' == k then Some(checked) else LookupFlag(f.shifts, k') {
        SetFlagLookup(f.shifts, k, checked, k');
      }
    }
    assert UniqueKeys(f.shifts) ==> UniqueKeys(flags) by {
      SetFlagKeys(f.shifts, k, checked);
    }
  }

  /** Editing one time of one shift changes that time only. */
  lemma ShiftTimeChangeSpec(f: FormData, k: ShiftKey, field: TimeField, value: string)
    ensures var r := ApplyFormChange(f, ShiftTimeChange(f, k, field, value));
      && (forall k', f' :: TimeOf(r.shiftTimes, k', f') ==
            if k' == k && f' == field then Some(value) else TimeOf(f.shiftTimes, k', f'))
      && r.shifts == f.shifts
      && (forall t :: TextOf(r, t) == TextOf(f, t))
  {
    var times := SetTime(f.shiftTimes, k, field, value);
    SetTimeSpec(f.shiftTimes, k, field, value);
    assert ApplyFormChange(f, ShiftTimeChange(f, k, field, value)) == f.(shiftTimes := times);
  }

  function Times(from: string, to: string, pause: string): ShiftTime
  {
    ShiftTime(Some(from), Some(to), Some(pause))
  }

  /** The form's contents when the page opens. */
  const InitialForm := FormData(
    "Kommissionierung KW05",
    "",
    "Logistik-Zentrum West",
    "250000",
    "Planung für das erste Quartal, erhöhter Bedarf durch Ostergeschäft erwartet.",
    "AZ-2025-LOG-17",
    [ShiftFlag(Fruehschicht, true), ShiftFlag(Spaetschicht, false),
     ShiftFlag(Nachtschicht, false), ShiftFlag(Tagschicht, true)],
    map[Fruehschicht := Times("06:00", "14:00", "35:00"),
        Tagschicht := Times("08:00", "16:30", "35:00"),
        Spaetschicht := Times("14:00", "22:00", "35:00"),
        Nachtschicht := Times("22:00", "06:00", "35:00")])

  /** The form's contents after the order is cancelled. */
  const ClearedForm := FormData(
    "", "", "", "", "", "",
    [ShiftFlag(Fruehschicht, false), ShiftFlag(Spaetschicht, false),
     ShiftFlag(Nachtschicht, false), ShiftFlag(Tagschicht, false)],
    map[Fruehschicht := Times("", "", ""),
        Tagschicht := Times("", "", ""),
        Spaetschicht := Times("", "", ""),
        Nachtschicht := Times("", "", "")])

  /** The initial form stores exactly the checkbox defaults and the default times. */
  lemma InitialFormSpec()
    ensures UniqueKeys(InitialForm.shifts)
    ensures forall k :: LookupFlag(InitialForm.shifts, k) == Some(DefaultChecked(k))
    ensures forall k, field :: TimeOf(InitialForm.shiftTimes, k, field) == Some(DefaultTime(k, field))
  {
    forall k ensures LookupFlag(InitialForm.shifts, k) == Some(DefaultChecked(k)) {
      match k
      case Fruehschicht =>
      case Spaetschicht =>
      case Nachtschicht =>
      case Tagschicht =>
    }
    forall k, field ensures TimeOf(InitialForm.shiftTimes, k, field) == Some(DefaultTime(k, field)) {
      match k
      case Fruehschicht =>
      case Spaetschicht =>
      case Nachtschicht =>
      case Tagschicht =>
    }
  }

  /** The cleared form turns every shift off, stores every time as "", shows no time
      row, and the form then displays the default time for every shift. */
  lemma ClearedFormSpec()
    ensures forall t :: TextOf(ClearedForm, t) == ""
    ensures UniqueKeys(ClearedForm.shifts)
    ensures forall k :: LookupFlag(ClearedForm.shifts, k) == Some(false)
    ensures forall k, field :: TimeOf(ClearedForm.shiftTimes, k, field) == Some("")
    ensures forall k, field :: ShownTime(ClearedForm.shiftTimes, k, field) == DefaultTime(k, field)
    ensures TimeRows(ClearedForm.shifts, ClearedForm.shiftTimes) == []
  {
    forall k ensures LookupFlag(ClearedForm.shifts, k) == Some(false) {
      match k
      case Fruehschicht =>
      case Spaetschicht =>
      case Nachtschicht =>
      case Tagschicht =>
    }
    forall k, field ensures TimeOf(ClearedForm.shiftTimes, k, field) == Some("") {
      match k
      case Fruehschicht =>
      case Spaetschicht =>
      case Nachtschicht =>
      case Tagschicht =>
    }
  }
}
