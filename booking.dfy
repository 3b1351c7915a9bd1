/** The table-booking wizard: pick a date (step 1), a time (step 2), then
    an available table (step 3) and submit. Two copies of the wizard exist
    and differ only in their messages and in how a refused booking is
    reported: frontend/src/components/ReservationForm.jsx (`Routed`), which
    singles out authentication failures, and
    frontend/src/pages/ReservationForm.jsx (`Standalone`), which always shows
    the server's text. One class with a `variant` models both. */
module Booking {
  import opened Common
  import opened Text
  import opened Reservations

  /** A table as the table service lists it; `status` is None when absent. */
  datatype Table = Table(id: int, tableLabel: string, tableNumber: int, seatingCapacity: int, status: Option<string>)

  datatype Variant = Routed | Standalone

  /** The booking reply: the created reservation, or the refusal's HTTP
      status (0 when no response arrived), `error` and `message` fields
      ("" when absent). */
  datatype SubmitOutcome = Created(reservation: Reservation) | Refused(status: int, error: string, message: string)

  // ------------------------------------------------------------ tables

  const AvailableStatus: string := "available"

  /** `t.status?.toLowerCase() === "available"`: the status is "available"
      in any mix of letter cases. */
  predicate Selectable(t: Table)
    ensures Selectable(t) <==> t.status.Some? && SameIgnoringCase(t.status.value, AvailableStatus)
  {
    assert Lower(AvailableStatus) == AvailableStatus by {
      assert forall i :: 0 <= i < |AvailableStatus| ==> LowerChar(AvailableStatus[i]) == AvailableStatus[i];
    }
    if t.status.Some? then LowerEqualsIff(t.status.value, AvailableStatus); Lower(t.status.value) == AvailableStatus
    else false
  }

  /** The badge text `t.status || "Available"`: never empty, and the
      table's own status whenever it has a non-empty one. */
  function StatusBadge(t: Table): (b: string)
    ensures b != ""
    ensures b == "Available" || t.status == Some(b)
  {
    if t.status.Some? && t.status.value != "" then t.status.value else "Available"
  }

  /** The style class `t.status?.toLowerCase() || "available"`: never
      empty and always lower-case. */
  function StatusClass(t: Table): (c: string)
    ensures c != "" && Lower(c) == c
  {
    assert Lower(AvailableStatus) == AvailableStatus by {
      assert forall i :: 0 <= i < |AvailableStatus| ==> LowerChar(AvailableStatus[i]) == AvailableStatus[i];
    }
    if t.status.Some? && t.status.value != "" then LowerIdempotent(t.status.value); Lower(t.status.value) else AvailableStatus
  }

  /** The caption `t.tableLabel || "T<number>"` (routed) or
      `"Table <number>"` (standalone). */
  function Caption(v: Variant, t: Table): (c: string)
    ensures t.tableLabel != "" ==> c == t.tableLabel
    ensures t.tableLabel == "" ==> c == (if v.Routed? then "T" else "Table ") + IntegerString(t.tableNumber)
  {
    if t.tableLabel != "" then t.tableLabel else (if v.Routed? then "T" else "Table ") + IntegerString(t.tableNumber)
  }

  /** `Array.isArray(res.data.tables) ? res.data.tables : []`. */
  function TablesFrom(listed: Option<seq<Table>>): (tables: seq<Table>)
    ensures listed.Some? ==> tables == listed.value
    ensures listed.None? ==> tables == []
  {
    listed.GetOr([])
  }

  /** A table is styled "available" exactly when it is selectable or has
      no status at all; so a table without a status looks available (and
      its badge reads "Available") yet a click on it selects nothing. */
  lemma StyledAvailable(t: Table)
    ensures StatusClass(t) == "available" <==> Selectable(t) || t.status.None? || t.status.value == ""
    ensures t.status.None? ==> StatusBadge(t) == "Available" && !Selectable(t)
  {
  }

  // ------------------------------------------------------------ messages

  function DateMissing(v: Variant): string {
    if v.Routed? then " Please select a date" else "\U{26A0}\U{FE0F} Please select a date"
  }

  function TimeMissing(v: Variant): string {
    if v.Routed? then " Please select a time" else "\U{26A0}\U{FE0F} Please select a time"
  }

  function SubmitMissing(v: Variant): string {
    if v.Routed? then " Missing date, time, table, or token" else "\U{26A0}\U{FE0F} Missing date, time, table, or token"
  }

  const TablesFailed: string := "\U{274C} Failed to load tables. Please try again."
  const AuthFailed: string := " Authentication failed. Please log in again."
  const DefaultFailure: string := "Reservation failed"

  /** `error || message || "Reservation failed"`. */
  function ErrorText(error: string, message: string): (t: string)
    ensures t != ""
    ensures error != "" ==> t == error
    ensures error == "" && message != "" ==> t == message
    ensures error == "" && message == "" ==> t == DefaultFailure
  {
    OrElse(error, OrElse(message, DefaultFailure))
  }

  /** `status === 401 || text.toLowerCase().includes("token")`: a 401, or
      "token" somewhere in the lower-cased text. */
  predicate IsAuthFailure(status: int, text: string)
    ensures IsAuthFailure(status, text) <==> status == 401 || exists i :: OccursAt(Lower(text), "token", i)
  {
    ContainsIff(Lower(text), "token");
    status == 401 || Contains(Lower(text), "token")
  }

  /** The alert a refused booking shows: never empty, and ending in the
      server's text unless the routed wizard reports an authentication
      failure. */
  function FailureShown(v: Variant, status: int, text: string): (shown: string)
    ensures shown != ""
    ensures (v.Standalone? || !IsAuthFailure(status, text)) ==>
      |text| < |shown| && shown[|shown| - |text|..] == text
  {
    if v.Routed? then (if IsAuthFailure(status, text) then AuthFailed else " " + text)
    else "\U{274C} " + text
  }

  lemma {:induction false} LowerAppend(a: string, b: string)
    ensures Lower(a + b) == Lower(a) + Lower(b)
  {
    var l := Lower(a + b);
    assert forall i :: 0 <= i < |a| ==> l[i] == Lower(a)[i];
    assert forall i :: |a| <= i < |a + b| ==> l[i] == Lower(b)[i - |a|];
  }

  /** The routed wizard reports any refusal whose text mentions "token",
      in any letter case, as an authentication failure. */
  lemma MentionOfTokenIsAuthFailure(prefix: string, word: string, suffix: string, status: int)
    requires Lower(word) == "token"
    ensures FailureShown(Routed, status, prefix + word + suffix) == AuthFailed
  {
    var text := prefix + word + suffix;
    LowerAppend(prefix + word, suffix);
    LowerAppend(prefix, word);
    var l := Lower(text);
    assert l == Lower(prefix) + "token" + Lower(suffix);
    assert l[|prefix|..|prefix| + 5] == "token";
    ContainsIff(l, "token");
    assert OccursAt(l, "token", |prefix|);
  }

  /** A 401 is an authentication failure for the routed wizard whatever
      the text; the standalone wizard shows the text either way. */
  lemma Unauthorized(text: string)
    ensures FailureShown(Routed, 401, text) == AuthFailed
    ensures FailureShown(Standalone, 401, text) == "\U{274C} " + text
  {
  }

  /** A selected table id counts only when it is truthy (not 0). */
  predicate HasTable(selected: Option<int>) {
    selected.Some? && selected.value != 0
  }

  predicate ReadyToSubmit(date: string, time: string, authToken: string, selected: Option<int>) {
    date != "" && time != "" && authToken != "" && HasTable(selected)
  }

  // ------------------------------------------------------------ the wizard

  class BookingWizard {
    const variant: Variant
    var step: int
    var date: string
    var time: string
    var tables: seq<Table>
    var loadingTables: bool
    var loadingSubmit: bool
    var selectedTable: Option<int>
    var message: string
    var navigating: bool

    /** The wizard only moves forward: a later step has the earlier
        choices, and a selected table is one of the listed tables and was
        available. The loading flags are false between steps. */
    ghost predicate Valid()
      reads this
    {
      1 <= step <= 3
      && (step >= 2 ==> date != "")
      && (step == 3 ==> time != "")
      && (selectedTable.Some? ==>
            step == 3 && exists i :: 0 <= i < |tables| && tables[i].id == selectedTable.value && Selectable(tables[i]))
      && (navigating ==> step == 3)
      && !loadingTables && !loadingSubmit
    }

    constructor (v: Variant)
      ensures Valid() && variant == v && step == 1
      ensures date == "" && time == "" && tables == [] && selectedTable == None && message == "" && !navigating
    {
      variant := v;
      step := 1;
      date, time := "", "";
      tables := [];
      loadingTables, loadingSubmit := false, false;
      selectedTable := None;
      message := "";
      navigating := false;
    }

    /** The date input, shown at step 1. */
    method SetDate(d: string)
      requires Valid() && step == 1
      modifies this
      ensures Valid() && date == d && step == 1 && time == old(time) && message == old(message)
    {
      date := d;
    }

    /** The time input, shown at step 2. */
    method SetTime(t: string)
      requires Valid() && step == 2
      modifies this
      ensures Valid() && time == t && step == 2 && date == old(date) && message == old(message)
    {
      time := t;
    }

    method HandleNextToTime()
      requires Valid() && step == 1
      modifies this
      ensures Valid() && date == old(date) && time == old(time)
      ensures old(date) == "" ==> step == 1 && message == DateMissing(variant)
      ensures old(date) != "" ==> step == 2 && message == old(message)
    {
      if date == "" {
        message := DateMissing(variant);
        return;
      }
      step := 2;
    }

    /** Step 2 "Next": fetch the table list (its outcome is `listing`). */
    method HandleNextToTables(listing: Reply<Option<seq<Table>>>)
      requires Valid() && step == 2
      modifies this
      ensures Valid() && date == old(date) && time == old(time) && selectedTable == None
      ensures old(time) == "" ==> step == 2 && message == TimeMissing(variant) && tables == old(tables)
      ensures old(time) != "" && listing.Ok? ==> step == 3 && tables == TablesFrom(listing.body) && message == old(message)
      ensures old(time) != "" && listing.Failed? ==> step == 2 && tables == old(tables) && message == TablesFailed
    {
      if time == "" {
        message := TimeMissing(variant);
        return;
      }
      loadingTables := true;
      if listing.Ok? {
        tables := TablesFrom(listing.body);
        step := 3;
      } else {
        message := TablesFailed;
      }
      loadingTables := false;
    }

    /** A click on the i-th listed table: only an available one is taken. */
    method SelectTable(i: nat)
      requires Valid() && step == 3 && i < |tables|
      modifies this
      ensures Valid() && step == 3 && tables == old(tables) && message == old(message)
      ensures Selectable(tables[i]) ==> selectedTable == Some(tables[i].id)
      ensures !Selectable(tables[i]) ==> selectedTable == old(selectedTable)
    {
      if Selectable(tables[i]) {
        selectedTable := Some(tables[i].id);
      }
    }

    /** The step-3 submit. `tokenProp` is the component's `token` prop,
        `storedToken` the 'token' slot, `outcome` the booking reply. A
        created reservation is handed to the reservation container and
        returned as the confirmation page's input. */
    method HandleSubmit(store: ReservationStore, tokenProp: string, storedToken: string, outcome: SubmitOutcome)
      returns (confirmation: Option<Reservation>)
      requires Valid() && step == 3
      modifies this, store
      ensures Valid() && step == 3 && date == old(date) && time == old(time) && selectedTable == old(selectedTable)
      ensures !ReadyToSubmit(date, time, OrElse(tokenProp, storedToken), selectedTable) ==>
        message == SubmitMissing(variant) && navigating == old(navigating) && confirmation == None && unchanged(store)
      ensures ReadyToSubmit(date, time, OrElse(tokenProp, storedToken), selectedTable) && outcome.Created? ==>
        navigating && message == old(message) && confirmation == Some(outcome.reservation)
        && store.State() == ReservationState(Some(outcome.reservation), HistoryAfterSave(old(store.reservationHistory), outcome.reservation))
        && store.currentSlot == Stored(outcome.reservation)
        && store.historySlot == Stored(PersistedHistoryAsWritten(old(store.reservationHistory), outcome.reservation))
      ensures ReadyToSubmit(date, time, OrElse(tokenProp, storedToken), selectedTable) && outcome.Refused? ==>
        message == FailureShown(variant, outcome.status, ErrorText(outcome.error, outcome.message))
        && navigating == old(navigating) && confirmation == None && unchanged(store)
    {
      confirmation := None;
      var authToken := OrElse(tokenProp, storedToken);
      if !ReadyToSubmit(date, time, authToken, selectedTable) {
        message := SubmitMissing(variant);
        return;
      }
      loadingSubmit := true;
      match outcome {
        case Created(r) =>
          navigating := true;
          store.SaveReservation(r);
          confirmation := Some(r);
        case Refused(status, error, msg) =>
          message := FailureShown(variant, status, ErrorText(error, msg));
      }
      loadingSubmit := false;
    }

    /** The 4-second timer every message starts: it clears whatever
        message is showing when it fires. */
    method MessageTimerFires()
      requires Valid()
      modifies this
      ensures Valid() && message == ""
      ensures step == old(step) && date == old(date) && time == old(time) && tables == old(tables)
      ensures selectedTable == old(selectedTable) && navigating == old(navigating)
    {
      message := "";
    }
  }

  /** At step 3 the date and time are always present, so the "Missing"
      message there means the token is missing, no table is selected, or
      the selected table has id 0, which `!selectedTable` treats as none
      even though an available table with id 0 can be selected. */
  lemma MissingMeansTokenOrTable(date: string, time: string, authToken: string, selected: Option<int>)
    requires date != "" && time != ""
    ensures !ReadyToSubmit(date, time, authToken, selected) <==> authToken == "" || selected.None? || selected == Some(0)
  {
  }
}
