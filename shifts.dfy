/** The shift system of an order: the four shifts, the per-shift "enabled"
    flags (an object whose key order decides the order of the time rows), the
    per-shift working times, and the defaults the order form shows when a value
    is missing. */
module Shifts {
  import opened Common

  datatype ShiftKey = Fruehschicht | Tagschicht | Spaetschicht | Nachtschicht

  /** Position in the fixed order Früh, Tag, Spät, Nacht in which the activity tabs list shifts. */
  function Rank(k: ShiftKey): nat
  {
    match k
    case Fruehschicht => 0
    case Tagschicht => 1
    case Spaetschicht => 2
    case Nachtschicht => 3
  }

  /** The label an activity is tagged with when added under shift `k`. */
  function Label(k: ShiftKey): string
  {
    match k
    case Fruehschicht => "Frühschicht"
    case Tagschicht => "Tagschicht"
    case Spaetschicht => "Spätschicht"
    case Nachtschicht => "Nachtschicht"
  }

  /** Distinct shifts carry distinct labels, so filtering activities by label separates shifts. */
  lemma LabelInjective(a: ShiftKey, b: ShiftKey)
    ensures Label(a) == Label(b) ==> a == b
  {
  }

  /** Whether the order form's checkbox for `k` starts checked when no flag is stored. */
  function DefaultChecked(k: ShiftKey): bool
  {
    k == Fruehschicht || k == Tagschicht
  }

  /** One property of the `shifts` object: a key and its flag. */
  datatype ShiftFlag = ShiftFlag(key: ShiftKey, enabled: bool)

  /** The `shifts` object as its entries in key order. */
  type ShiftFlags = seq<ShiftFlag>

  ghost predicate UniqueKeys(flags: ShiftFlags)
  {
    forall i, j :: 0 <= i < j < |flags| ==> flags[i].key != flags[j].key
  }

  /** `shifts[k]`: the stored flag, `None` when the key is undefined. */
  function LookupFlag(flags: ShiftFlags, k: ShiftKey): (r: Option<bool>)
    ensures r.None? <==> forall i :: 0 <= i < |flags| ==> flags[i].key != k
    ensures r.Some? ==> exists i :: 0 <= i < |flags| && flags[i] == ShiftFlag(k, r.value)
  {
    if flags == [] then None
    else if flags[0].key == k then Some(flags[0].enabled)
    else LookupFlag(flags[1..], k)
  }

  /** In an object whose keys are distinct, each entry is what a lookup of its key finds. */
  lemma {:induction false} LookupUnique(flags: ShiftFlags, i: nat)
    requires UniqueKeys(flags) && i < |flags|
    ensures LookupFlag(flags, flags[i].key) == Some(flags[i].enabled)
  {
    if i > 0 {
      assert flags[0].key != flags[i].key;
      LookupUnique(flags[1..], i - 1);
    }
  }

  /** Overwrites the flag of every entry with key `k`, in place. */
  function ReplaceFlag(flags: ShiftFlags, k: ShiftKey, v: bool): ShiftFlags
  {
    Map(flags, (f: ShiftFlag) => if f.key == k then ShiftFlag(k, v) else f)
  }

  /** `{ ...shifts, [k]: v }`: an existing key keeps its position, a new key goes last. */
  function SetFlag(flags: ShiftFlags, k: ShiftKey, v: bool): ShiftFlags
  {
    if LookupFlag(flags, k).Some? then ReplaceFlag(flags, k, v) else flags + [ShiftFlag(k, v)]
  }

  function Keys(flags: ShiftFlags): seq<ShiftKey>
  {
    Map(flags, (f: ShiftFlag) => f.key)
  }

  lemma {:induction false} ReplaceFlagLookup(flags: ShiftFlags, k: ShiftKey, v: bool, k': ShiftKey)
    ensures LookupFlag(ReplaceFlag(flags, k, v), k') == if k' == k && LookupFlag(flags, k).Some? then Some(v) else LookupFlag(flags, k')
  {
    if flags != [] {
      var r := ReplaceFlag(flags, k, v);
      assert r[1..] == ReplaceFlag(flags[1..], k, v);
      ReplaceFlagLookup(flags[1..], k, v, k');
    }
  }

  lemma {:induction false} LookupSnoc(flags: ShiftFlags, x: ShiftFlag, k': ShiftKey)
    ensures LookupFlag(flags + [x], k') ==
      if LookupFlag(flags, k').Some? then LookupFlag(flags, k')
      else if x.key == k' then Some(x.enabled) else None
  {
    if flags != [] {
      assert (flags + [x])[1..] == flags[1..] + [x];
      LookupSnoc(flags[1..], x, k');
    } else {
      assert flags + [x] == [x];
    }
  }

  /** Setting one shift flag stores it and leaves every other shift's flag as it was. */
  lemma SetFlagLookup(flags: ShiftFlags, k: ShiftKey, v: bool, k': ShiftKey)
    ensures LookupFlag(SetFlag(flags, k, v), k') == if k' == k then Some(v) else LookupFlag(flags, k')
  {
    if LookupFlag(flags, k).Some? {
      ReplaceFlagLookup(flags, k, v, k');
    } else {
      LookupSnoc(flags, ShiftFlag(k, v), k');
    }
  }

  /** Keys keep their order, a new key is appended, and keys stay distinct. */
  lemma SetFlagKeys(flags: ShiftFlags, k: ShiftKey, v: bool)
    ensures Keys(SetFlag(flags, k, v)) == if LookupFlag(flags, k).Some? then Keys(flags) else Keys(flags) + [k]
    ensures UniqueKeys(flags) ==> UniqueKeys(SetFlag(flags, k, v))
  {
    var r := SetFlag(flags, k, v);
    if LookupFlag(flags, k).Some? {
      assert forall i :: 0 <= i < |r| ==> r[i].key == flags[i].key;
    } else {
      assert r == flags + [ShiftFlag(k, v)];
      assert Keys(r) == Keys(flags) + [k];
    }
  }

  /** The checkbox of shift `k` shows the stored flag, or the default when it is undefined (`??`). */
  function CheckboxChecked(flags: ShiftFlags, k: ShiftKey): bool
  {
    match LookupFlag(flags, k)
    case Some(b) => b
    case None => DefaultChecked(k)
  }

  /** A stored `false` is shown as unchecked; the default applies only to undefined flags. */
  lemma CheckboxSpec(flags: ShiftFlags, k: ShiftKey)
    ensures LookupFlag(flags, k).Some? ==> CheckboxChecked(flags, k) == LookupFlag(flags, k).value
    ensures LookupFlag(flags, k).None? ==> (CheckboxChecked(flags, k) <==> k == Fruehschicht || k == Tagschicht)
  {
  }

  datatype TimeField = From | To | Pause

  /** `shiftTimes[k]`: each of its three fields may be undefined. */
  datatype ShiftTime = ShiftTime(from: Option<string>, to: Option<string>, pause: Option<string>)

  type ShiftTimes = map<ShiftKey, ShiftTime>

  const NoTime := ShiftTime(None, None, None)

  function FieldOf(t: ShiftTime, field: TimeField): Option<string>
  {
    match field
    case From => t.from
    case To => t.to
    case Pause => t.pause
  }

  /** `shiftTimes?.[k]?.[field]`. */
  function TimeOf(times: ShiftTimes, k: ShiftKey, field: TimeField): Option<string>
  {
    if k in times then FieldOf(times[k], field) else None
  }

  function WithField(t: ShiftTime, field: TimeField, value: string): ShiftTime
  {
    match field
    case From => t.(from := Some(value))
    case To => t.(to := Some(value))
    case Pause => t.(pause := Some(value))
  }

  /** `{ ...times, [k]: { ...times[k], [field]: value } }`; an undefined `times[k]` spreads as `{}`. */
  function SetTime(times: ShiftTimes, k: ShiftKey, field: TimeField, value: string): ShiftTimes
  {
    times[k := WithField(if k in times then times[k] else NoTime, field, value)]
  }

  /** Setting one time field of one shift changes that field only. */
  lemma SetTimeSpec(times: ShiftTimes, k: ShiftKey, field: TimeField, value: string)
    ensures SetTime(times, k, field, value).Keys == times.Keys + {k}
    ensures forall k', f' ::
              TimeOf(SetTime(times, k, field, value), k', f') ==
              if k' == k && f' == field then Some(value) else TimeOf(times, k', f')
  {
  }

  /** The time the form shows when the stored one is missing or empty. */
  function DefaultTime(k: ShiftKey, field: TimeField): string
  {
    match field
    case From => (match k
      case Fruehschicht => "06:00"
      case Tagschicht => "08:00"
      case Spaetschicht => "14:00"
      case Nachtschicht => "22:00")
    case To => (match k
      case Fruehschicht => "14:00"
      case Tagschicht => "16:30"
      case Spaetschicht => "22:00"
      case Nachtschicht => "06:00")
    case Pause => "35:00"
  }

  /** `shiftTimes?.[k]?.[field] || default`: an empty string also falls back. */
  function ShownTime(times: ShiftTimes, k: ShiftKey, field: TimeField): (t: string)
    ensures t != ""
    ensures Truthy(TimeOf(times, k, field)) ==> t == TimeOf(times, k, field).value
    ensures !Truthy(TimeOf(times, k, field)) ==> t == DefaultTime(k, field)
  {
    if Truthy(TimeOf(times, k, field)) then TimeOf(times, k, field).value else DefaultTime(k, field)
  }

  /** One row of the shift-times panel. */
  datatype TimeRow = TimeRow(key: ShiftKey, from: string, to: string, pause: string)

  function RowFor(times: ShiftTimes, k: ShiftKey): TimeRow
  {
    TimeRow(k, ShownTime(times, k, From), ShownTime(times, k, To), ShownTime(times, k, Pause))
  }

  /** The entries whose flag is true, in the object's key order. */
  function EnabledFlags(flags: ShiftFlags): seq<ShiftFlag>
  {
    Filter(flags, (f: ShiftFlag) => f.enabled)
  }

  /** With distinct keys, a shift has an enabled entry exactly when its flag is stored as true. */
  lemma EnabledFlagsSpec(flags: ShiftFlags, k: ShiftKey)
    requires UniqueKeys(flags)
    ensures (exists i :: 0 <= i < |EnabledFlags(flags)| && EnabledFlags(flags)[i].key == k) <==> LookupFlag(flags, k) == Some(true)
  {
    var enabled := EnabledFlags(flags);
    if exists i :: 0 <= i < |enabled| && enabled[i].key == k {
      var i :| 0 <= i < |enabled| && enabled[i].key == k;
      assert enabled[i] in flags && enabled[i].enabled;
      var j :| 0 <= j < |flags| && flags[j] == enabled[i];
      LookupUnique(flags, j);
    }
    if LookupFlag(flags, k) == Some(true) {
      var j :| 0 <= j < |flags| && flags[j] == ShiftFlag(k, true);
      assert flags[j] in enabled;
      var i :| 0 <= i < |enabled| && enabled[i] == flags[j];
      assert enabled[i].key == k;
    }
  }

  /** `Object.entries(shifts).map(([k, enabled]) => enabled && row)`: rows for the enabled
      entries, in the object's key order. */
  function TimeRows(flags: ShiftFlags, times: ShiftTimes): seq<TimeRow>
  {
    Map(EnabledFlags(flags), (f: ShiftFlag) => RowFor(times, f.key))
  }

  /** A shift has a time row exactly when its flag is stored as true, and the row shows its times. */
  lemma TimeRowsSpec(flags: ShiftFlags, times: ShiftTimes, k: ShiftKey)
    requires UniqueKeys(flags)
    ensures (exists i :: 0 <= i < |TimeRows(flags, times)| && TimeRows(flags, times)[i].key == k)
        <==> LookupFlag(flags, k) == Some(true)
    ensures forall i :: 0 <= i < |TimeRows(flags, times)| ==> TimeRows(flags, times)[i] == RowFor(times, TimeRows(flags, times)[i].key)
  {
    var enabled := EnabledFlags(flags);
    var rows := TimeRows(flags, times);
    assert forall i :: 0 <= i < |rows| ==> rows[i].key == enabled[i].key;
    EnabledFlagsSpec(flags, k);
  }
}
